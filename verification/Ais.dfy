/**
 Inference requests, worker queues and results (pallet-qx-ai).

 `Ai` is the pallet's storage as a value. Its functions say what each call does as one atomic
 step that checks before it writes. The class `AiPallet` holds the same storage in fields and
 writes in the pallet's own order, so a failing call can leave writes behind for the dispatcher
 to roll back.
 */
module Ais {
  import opened Primitives
  import opened Sequences
  import MapSums
  import opened Kilts

  /** How many ids there are: the counters are 32-bit and wrap after the last one. */
  const ID_SPACE: int := U32_MAX + 1

  datatype RequestStatus = Queued | Assigned | Completed | Failed
  datatype InferenceStatus = Completed | Failed

  datatype Request = Request(
    customer: Account, targetWorker: Account, prompt: Bytes, maxTokens: u32, status: RequestStatus, createdAt: u32)

  datatype InferenceResult = InferenceResult(
    requestId: u32, worker: Account, workerDid: Did, output: Bytes, status: InferenceStatus, submittedAt: u32)

  datatype Ai = Ai(
    nextRequestId: u32,
    nextInferenceId: u32,
    requests: map<u32, Request>,
    results: map<u32, InferenceResult>,
    queues: map<Account, seq<u32>>,
    requestWorker: map<u32, Account>,
    online: map<Account, bool>)
  {
    /** A worker without a stored queue has the empty one. */
    function Queue(worker: Account): seq<u32> {
      if worker in queues then queues[worker] else []
    }

    predicate IsOpen(worker: Account, id: u32) {
      id in requests && requests[id].targetWorker == worker && requests[id].status == RequestStatus.Queued
    }

    /** The open requests of a worker, read off the request map alone. */
    function Open(worker: Account): set<u32> {
      set id | id in requests && IsOpen(worker, id)
    }

    /** How many request ids have been handed out: a counter back at zero with id zero taken has handed out all. */
    function Made(): nat {
      if nextRequestId == 0 && 0 in requests then ID_SPACE else nextRequestId
    }

    /** How many inference ids have been handed out. */
    function Answered(): nat {
      if nextInferenceId == 0 && 0 in results then ID_SPACE else nextInferenceId
    }

    /** The counter, request and request-to-worker writes `submit_request` makes before it knows there is room. */
    function Recorded(request: Request): Ai {
      this.(nextRequestId := WrapInc(nextRequestId),
        requests := requests[nextRequestId := request],
        requestWorker := requestWorker[nextRequestId := request.targetWorker])
    }

    /** A request stored and appended to its worker's queue. */
    function Enqueued(request: Request): Ai {
      Recorded(request).(queues := queues[request.targetWorker := Queue(request.targetWorker) + [nextRequestId]])
    }

    /** A queued request completed by `result`. */
    function Completed(result: InferenceResult): Ai
      requires result.requestId in requests
    {
      var id := result.requestId;
      this.(nextInferenceId := WrapInc(nextInferenceId),
        results := results[nextInferenceId := result],
        requests := requests[id := requests[id].(status := RequestStatus.Completed)],
        queues := if result.worker in queues
                  then queues[result.worker := Exclude(queues[result.worker], {id})]
                  else queues)
    }

    /** Check first, then write: the target must hold a DID that verifies now and have room in its queue. */
    ghost function SubmitRequest(cfg: Config, kilt: Kilt, now: u32, origin: Origin,
                                 target: Account, prompt: Bytes, maxTokens: u32): Result<Ai>
    {
      if !origin.Signed? then Err(BadOrigin)
      else if kilt.GetWorkerDid(target).Err? then Err(WorkerDIDNotFound)
      else if kilt.Verify(kilt.GetWorkerDid(target).value, now) != Ok(true) then Err(InvalidWorkerCredential)
      else if |Queue(target)| >= cfg.maxQueueSize then Err(AIWorkerQueueFull)
      else Ok(Enqueued(Request(origin.who, target, prompt, maxTokens, RequestStatus.Queued, now)))
    }

    ghost function UpdateAiWorkerStatus(kilt: Kilt, now: u32, origin: Origin, flag: bool): Result<Ai> {
      if !origin.Signed? then Err(BadOrigin)
      else
        match kilt.Authorize(origin.who, now)
        case Err(e) => Err(e)
        case Ok(_) => Ok(this.(online := online[origin.who := flag]))
    }

    ghost function SubmitInference(kilt: Kilt, now: u32, origin: Origin, id: u32, output: Bytes): Result<Ai> {
      if !origin.Signed? then Err(BadOrigin)
      else
        match kilt.Authorize(origin.who, now)
        case Err(e) => Err(e)
        case Ok(did) =>
          if id !in requests then Err(RequestNotFound)
          else if requests[id].targetWorker != origin.who then Err(RequestNotAssigned)
          else if requests[id].status != RequestStatus.Queued then Err(RequestAlreadyAssigned)
          else Ok(Completed(InferenceResult(id, origin.who, did, output, InferenceStatus.Completed, now)))
    }
  }

  // ---------------------------------------------------------------- invariant

  /** Requests and results occupy exactly the ids handed out so far. */
  ghost predicate IdsDense(ai: Ai) {
    && (forall id: u32 :: id in ai.requests <==> id < ai.Made())
    && (forall i: u32 :: i in ai.results <==> i < ai.Answered())
    && ai.requestWorker.Keys == ai.requests.Keys
    && (forall id <- ai.requests :: ai.requestWorker[id] == ai.requests[id].targetWorker)
  }

  /** Each queue is the strictly increasing list of its worker's open requests, and fits its bound. */
  ghost predicate QueueIndexes(cfg: Config, ai: Ai, w: Account) {
    && Increasing(ai.Queue(w))
    && (forall id :: id in ai.Queue(w) <==> ai.IsOpen(w, id))
    && |ai.Queue(w)| <= cfg.maxQueueSize
  }

  /** A result answers a completed request of its own worker. */
  ghost predicate ResultAnswers(ai: Ai, i: u32)
    requires i in ai.results
  {
    var r := ai.results[i];
    && r.status == InferenceStatus.Completed
    && r.requestId in ai.requests
    && ai.requests[r.requestId].status == RequestStatus.Completed
    && ai.requests[r.requestId].targetWorker == r.worker
  }

  ghost predicate AnsweredBy(ai: Ai, id: u32, i: u32) {
    i in ai.results && ai.results[i].requestId == id
  }

  /** Results and completed requests are in one-to-one correspondence; no other status occurs. */
  ghost predicate ResultsMatch(ai: Ai) {
    && (forall i <- ai.results :: ResultAnswers(ai, i))
    && (forall id: u32, i: u32, j: u32 :: AnsweredBy(ai, id, i) && AnsweredBy(ai, id, j) ==> i == j)
    && (forall id <- ai.requests :: Settled(ai, id))
  }

  /** A request is queued, or completed and answered. */
  ghost predicate Settled(ai: Ai, id: u32)
    requires id in ai.requests
  {
    || ai.requests[id].status == RequestStatus.Queued
    || (ai.requests[id].status == RequestStatus.Completed && exists i :: AnsweredBy(ai, id, i))
  }

  ghost function QueueLengths(ai: Ai): map<Account, nat> {
    map w | w in ai.queues :: |ai.queues[w]|
  }

  /** Every request handed out is either answered or waiting in some queue. */
  ghost predicate Conserved(ai: Ai) {
    ai.Made() == ai.Answered() + MapSums.Sum(QueueLengths(ai))
  }

  ghost predicate AiInv(cfg: Config, ai: Ai) {
    && IdsDense(ai)
    && (forall w :: QueueIndexes(cfg, ai, w))
    && ResultsMatch(ai)
    && Conserved(ai)
  }

  /** Counting open requests in the request map gives the queue's length. */
  lemma OpenCountsQueue(cfg: Config, ai: Ai, w: Account)
    requires QueueIndexes(cfg, ai, w)
    ensures |ai.Open(w)| == |ai.Queue(w)|
  {
    IncreasingCardinality(ai.Queue(w), ai.Open(w));
  }

  /** The queues are determined by the request map: two storages with the same requests have the same queues. */
  lemma QueuesDetermined(cfg: Config, ai: Ai, other: Ai, w: Account)
    requires QueueIndexes(cfg, ai, w) && QueueIndexes(cfg, other, w)
    requires ai.requests == other.requests
    ensures ai.Queue(w) == other.Queue(w)
  {
    forall id ensures id in ai.Queue(w) <==> id in other.Queue(w) {
      assert ai.IsOpen(w, id) <==> other.IsOpen(w, id);
    }
    IncreasingUnique(ai.Queue(w), other.Queue(w));
  }

  /** An id waits in at most one queue. */
  lemma NoSharedIds(cfg: Config, ai: Ai, v: Account, w: Account, id: u32)
    requires AiInv(cfg, ai)
    requires id in ai.Queue(v) && id in ai.Queue(w)
    ensures v == w
  {
    assert QueueIndexes(cfg, ai, v) && QueueIndexes(cfg, ai, w);
    assert ai.IsOpen(v, id) && ai.IsOpen(w, id);
  }

  // ------------------------------------------------- submit_request keeps it

  lemma EnqueuedQueues(cfg: Config, ai: Ai, request: Request, w: Account)
    requires AiInv(cfg, ai) && ai.nextRequestId !in ai.requests
    requires request.status == RequestStatus.Queued
    requires |ai.Queue(request.targetWorker)| < cfg.maxQueueSize
    ensures QueueIndexes(cfg, ai.Enqueued(request), w)
  {
    var next := ai.nextRequestId;
    var ai' := ai.Enqueued(request);
    assert QueueIndexes(cfg, ai, w);
    forall id ensures id in ai'.Queue(w) <==> ai'.IsOpen(w, id) {
      assert id in ai.Queue(w) <==> ai.IsOpen(w, id);
    }
    forall i | 0 <= i < |ai.Queue(w)| ensures ai.Queue(w)[i] < next {
      assert ai.Queue(w)[i] in ai.Queue(w);
    }
  }

  lemma EnqueuedLengths(ai: Ai, request: Request)
    ensures MapSums.Sum(QueueLengths(ai.Enqueued(request))) == MapSums.Sum(QueueLengths(ai)) + 1
  {
    var w := request.targetWorker;
    var n := |ai.Queue(w)| + 1;
    assert QueueLengths(ai.Enqueued(request)) == QueueLengths(ai)[w := n];
    MapSums.SumUpdate(QueueLengths(ai), w, n);
  }

  lemma EnqueuedIds(ai: Ai, request: Request)
    requires IdsDense(ai) && ai.nextRequestId !in ai.requests
    ensures IdsDense(ai.Enqueued(request)) && ai.Enqueued(request).Made() == ai.Made() + 1
    ensures ai.Enqueued(request).Answered() == ai.Answered()
  {
  }

  lemma EnqueuedResults(ai: Ai, request: Request)
    requires ai.nextRequestId !in ai.requests && ResultsMatch(ai)
    requires request.status == RequestStatus.Queued
    ensures ResultsMatch(ai.Enqueued(request))
  {
    var ai' := ai.Enqueued(request);
    forall i <- ai'.results ensures ResultAnswers(ai', i) {
      assert ResultAnswers(ai, i);
    }
    forall id, i ensures AnsweredBy(ai', id, i) <==> AnsweredBy(ai, id, i) {
    }
    forall id <- ai'.requests ensures Settled(ai', id) {
      if id in ai.requests {
        assert Settled(ai, id);
      }
    }
  }

  lemma EnqueuedKeepsInv(cfg: Config, ai: Ai, request: Request)
    requires AiInv(cfg, ai) && ai.nextRequestId !in ai.requests
    requires request.status == RequestStatus.Queued
    requires |ai.Queue(request.targetWorker)| < cfg.maxQueueSize
    ensures AiInv(cfg, ai.Enqueued(request))
  {
    var ai' := ai.Enqueued(request);
    EnqueuedIds(ai, request);
    EnqueuedResults(ai, request);
    EnqueuedLengths(ai, request);
    assert Conserved(ai');
    forall w ensures QueueIndexes(cfg, ai', w) {
      EnqueuedQueues(cfg, ai, request, w);
    }
  }

  /** A counter that points at a stored request has wrapped, and every id is taken. */
  lemma TakenMeansExhausted(ai: Ai)
    requires IdsDense(ai)
    ensures ai.nextRequestId in ai.requests <==> ai.Made() == ID_SPACE
    ensures ai.Made() == ID_SPACE ==> ai.nextRequestId == 0 && forall id: u32 :: id in ai.requests
  {
  }

  /** Storing a request over another one moves the counter past an id that is taken: the ids stop being dense. */
  lemma ReuseBreaksDensity(ai: Ai, request: Request)
    requires IdsDense(ai) && ai.nextRequestId in ai.requests
    ensures !IdsDense(ai.Recorded(request)) && !IdsDense(ai.Enqueued(request))
  {
    TakenMeansExhausted(ai);
    var last: u32 := U32_MAX;
    assert last in ai.requests;
    assert last in ai.Recorded(request).requests && last in ai.Enqueued(request).requests;
  }

  /**
   Why the roll-back matters: the writes made before a failed push record an open request that
   no queue holds.
   */
  lemma EarlyWritesOrphan(cfg: Config, ai: Ai, request: Request)
    requires AiInv(cfg, ai)
    requires request.status == RequestStatus.Queued
    ensures !AiInv(cfg, ai.Recorded(request))
  {
    var w, next := request.targetWorker, ai.nextRequestId;
    var ai' := ai.Recorded(request);
    if next in ai.requests {
      ReuseBreaksDensity(ai, request);
    } else {
      assert ai'.IsOpen(w, next);
      assert ai'.Queue(w) == ai.Queue(w);
      assert QueueIndexes(cfg, ai, w);
      assert next in ai.Queue(w) <==> ai.IsOpen(w, next);
      assert !QueueIndexes(cfg, ai', w);
    }
  }

  // ----------------------------------------------- submit_inference keeps it

  lemma CompletedQueues(cfg: Config, ai: Ai, result: InferenceResult, w: Account)
    requires AiInv(cfg, ai)
    requires ai.IsOpen(result.worker, result.requestId)
    ensures QueueIndexes(cfg, ai.Completed(result), w)
    ensures ai.Completed(result).Queue(w) ==
            if w == result.worker then Exclude(ai.Queue(w), {result.requestId}) else ai.Queue(w)
  {
    var ai' := ai.Completed(result);
    assert QueueIndexes(cfg, ai, w);
    ExcludeMembers(ai.Queue(w), {result.requestId});
    ExcludeIncreasing(ai.Queue(w), {result.requestId});
    forall id ensures id in ai'.Queue(w) <==> ai'.IsOpen(w, id) {
      assert id in ai.Queue(w) <==> ai.IsOpen(w, id);
    }
  }

  /** Exactly one slot of the worker's own queue is freed. */
  lemma CompletedLengths(cfg: Config, ai: Ai, result: InferenceResult)
    requires AiInv(cfg, ai)
    requires ai.IsOpen(result.worker, result.requestId)
    ensures MapSums.Sum(QueueLengths(ai.Completed(result))) == MapSums.Sum(QueueLengths(ai)) - 1
  {
    var w, id := result.worker, result.requestId;
    assert QueueIndexes(cfg, ai, w);
    assert id in ai.Queue(w);
    var before, after := ExcludeOne(ai.Queue(w), id);
    var n := |ai.Queue(w)| - 1;
    assert QueueLengths(ai.Completed(result)) == QueueLengths(ai)[w := n];
    MapSums.SumUpdate(QueueLengths(ai), w, n);
  }

  lemma CompletedResults(ai: Ai, result: InferenceResult)
    requires ai.nextInferenceId !in ai.results && ResultsMatch(ai)
    requires ai.IsOpen(result.worker, result.requestId)
    requires result.status == InferenceStatus.Completed
    ensures ResultsMatch(ai.Completed(result))
  {
    var next, ai' := ai.nextInferenceId, ai.Completed(result);
    forall i <- ai'.results ensures ResultAnswers(ai', i) {
      if i != next {
        assert ResultAnswers(ai, i);
      }
    }
    forall id, i ensures AnsweredBy(ai', id, i) <==> AnsweredBy(ai, id, i) || (id == result.requestId && i == next) {
    }
    forall i ensures !AnsweredBy(ai, result.requestId, i) {
    }
    forall id <- ai'.requests ensures Settled(ai', id) {
      assert Settled(ai, id);
      assert AnsweredBy(ai', result.requestId, next);
    }
  }

  /** While anything is open fewer results than requests are stored, so a result never takes the place of another. */
  lemma InferenceIdsSuffice(cfg: Config, ai: Ai, w: Account, id: u32)
    requires AiInv(cfg, ai) && ai.IsOpen(w, id)
    ensures ai.Answered() < ai.Made() && ai.nextInferenceId !in ai.results
  {
    assert QueueIndexes(cfg, ai, w);
    assert id in ai.Queue(w);
    assert QueueLengths(ai)[w] >= 1;
    MapSums.OneWithinSum(QueueLengths(ai), w);
  }

  lemma CompletedIds(cfg: Config, ai: Ai, result: InferenceResult)
    requires IdsDense(ai) && ai.nextInferenceId !in ai.results
    requires ai.IsOpen(result.worker, result.requestId)
    ensures IdsDense(ai.Completed(result)) && ai.Completed(result).Answered() == ai.Answered() + 1
    ensures ai.Completed(result).Made() == ai.Made()
  {
  }

  lemma CompletedKeepsInv(cfg: Config, ai: Ai, result: InferenceResult)
    requires AiInv(cfg, ai)
    requires ai.IsOpen(result.worker, result.requestId)
    requires result.status == InferenceStatus.Completed
    ensures AiInv(cfg, ai.Completed(result))
  {
    var ai' := ai.Completed(result);
    InferenceIdsSuffice(cfg, ai, result.worker, result.requestId);
    CompletedIds(cfg, ai, result);
    CompletedResults(ai, result);
    CompletedLengths(cfg, ai, result);
    assert Conserved(ai');
    forall w ensures QueueIndexes(cfg, ai', w) {
      CompletedQueues(cfg, ai, result, w);
    }
  }

  // ------------------------------------------------------------- the pallet

  class AiPallet {
    var nextRequestId: u32
    var nextInferenceId: u32
    var requests: map<u32, Request>
    var results: map<u32, InferenceResult>
    var queues: map<Account, seq<u32>>
    var requestWorker: map<u32, Account>
    var online: map<Account, bool>

    function State(): Ai
      reads this
    {
      Ai(nextRequestId, nextInferenceId, requests, results, queues, requestWorker, online)
    }

    constructor (initial: Ai)
      ensures State() == initial
    {
      nextRequestId, nextInferenceId := initial.nextRequestId, initial.nextInferenceId;
      requests, results := initial.requests, initial.results;
      queues, requestWorker, online := initial.queues, initial.requestWorker, initial.online;
    }

    method Restore(saved: Ai)
      modifies this
      ensures State() == saved
    {
      nextRequestId, nextInferenceId := saved.nextRequestId, saved.nextInferenceId;
      requests, results := saved.requests, saved.results;
      queues, requestWorker, online := saved.queues, saved.requestWorker, saved.online;
    }

    /**
     Writes the counter, the request and its worker, and only then finds out whether the queue
     takes the id. A full queue is the one failure that leaves writes behind.
     */
    method SubmitRequest(cfg: Config, kilt: KiltPermissions, now: u32, origin: Origin,
                         target: Account, prompt: Bytes, maxTokens: u32)
      returns (r: Result<()>)
      requires cfg.WellFormed() && KiltInv(cfg, kilt.State(), now)
      modifies this
      ensures r == Report(old(State()).SubmitRequest(cfg, kilt.State(), now, origin, target, prompt, maxTokens))
      ensures r.Ok? ==>
        Ok(State()) == old(State()).SubmitRequest(cfg, kilt.State(), now, origin, target, prompt, maxTokens)
      ensures r == Err(AIWorkerQueueFull) ==>
        State() == old(State()).Recorded(Request(origin.who, target, prompt, maxTokens, RequestStatus.Queued, now))
      ensures r.Err? && r.error != AIWorkerQueueFull ==> State() == old(State())
    {
      if !origin.Signed? { return Err(BadOrigin); }
      var did := kilt.GetWorkerDid(target);
      if did.Err? { return Err(WorkerDIDNotFound); }
      var verified := kilt.VerifyWorkerCredential(cfg, now, did.value);
      var valid := if verified.Ok? then verified.value else false;
      if !valid { return Err(InvalidWorkerCredential); }

      var id := nextRequestId;
      nextRequestId := WrapInc(id);
      var request := Request(origin.who, target, prompt, maxTokens, RequestStatus.Queued, now);
      requests := requests[id := request];
      requestWorker := requestWorker[id := target];

      var queue := if target in queues then queues[target] else [];
      if |queue| >= cfg.maxQueueSize { return Err(AIWorkerQueueFull); }
      queues := queues[target := queue + [id]];
      return Ok(());
    }

    method UpdateAiWorkerStatus(cfg: Config, kilt: KiltPermissions, now: u32, origin: Origin, flag: bool)
      returns (r: Result<()>)
      requires cfg.WellFormed() && KiltInv(cfg, kilt.State(), now)
      modifies this
      ensures r == Report(old(State()).UpdateAiWorkerStatus(kilt.State(), now, origin, flag))
      ensures State() == After(old(State()), old(State()).UpdateAiWorkerStatus(kilt.State(), now, origin, flag))
    {
      if !origin.Signed? { return Err(BadOrigin); }
      var did := kilt.GetWorkerDid(origin.who);
      if did.Err? { return Err(did.error); }
      var verified := kilt.VerifyWorkerCredential(cfg, now, did.value);
      if verified.Err? { return Err(verified.error); }
      if !verified.value { return Err(InvalidWorkerCredential); }
      online := online[origin.who := flag];
      return Ok(());
    }

    method SubmitInference(cfg: Config, kilt: KiltPermissions, now: u32, origin: Origin, id: u32, output: Bytes)
      returns (r: Result<()>)
      requires cfg.WellFormed() && KiltInv(cfg, kilt.State(), now)
      modifies this
      ensures r == Report(old(State()).SubmitInference(kilt.State(), now, origin, id, output))
      ensures State() == After(old(State()), old(State()).SubmitInference(kilt.State(), now, origin, id, output))
    {
      if !origin.Signed? { return Err(BadOrigin); }
      var who := origin.who;
      var did := kilt.GetWorkerDid(who);
      if did.Err? { return Err(did.error); }
      var verified := kilt.VerifyWorkerCredential(cfg, now, did.value);
      if verified.Err? { return Err(verified.error); }
      if !verified.value { return Err(InvalidWorkerCredential); }

      if id !in requests { return Err(RequestNotFound); }
      var request := requests[id];
      if request.targetWorker != who { return Err(RequestNotAssigned); }
      if request.status != RequestStatus.Queued { return Err(RequestAlreadyAssigned); }

      var inferenceId := nextInferenceId;
      nextInferenceId := WrapInc(inferenceId);
      results := results[inferenceId := InferenceResult(id, who, did.value, output, InferenceStatus.Completed, now)];
      requests := requests[id := request.(status := RequestStatus.Completed)];
      if who in queues {
        queues := queues[who := Exclude(queues[who], {id})];
      }
      return Ok(());
    }
  }
}
