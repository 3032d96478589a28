/** Whole runs: what holds in every reachable state, and what a run can never undo. */
module Runs {
  import opened Primitives
  import opened Sequences
  import opened Kilts
  import opened Ais
  import opened Runtimes

  function Init(events: seq<Event>): seq<Event>
    requires events != []
  {
    events[..|events| - 1]
  }

  function Last(events: seq<Event>): Event
    requires events != []
  {
    events[|events| - 1]
  }

  ghost function Run(cfg: Config, s: Chain, events: seq<Event>): Chain {
    if events == [] then s else Step(cfg, Run(cfg, s, Init(events)), Last(events))
  }

  /** No step of the run accepts a request under an id that is already stored. */
  ghost predicate ReuseFree(cfg: Config, s: Chain, events: seq<Event>) {
    events == [] || (ReuseFree(cfg, s, Init(events)) && !Reuses(cfg, Run(cfg, s, Init(events)), Last(events)))
  }

  /** Every event of the run is a call that commits. */
  ghost predicate AllAccepted(cfg: Config, s: Chain, events: seq<Event>) {
    events == [] || (AllAccepted(cfg, s, Init(events)) && Accepted(cfg, Run(cfg, s, Init(events)), Last(events)))
  }

  ghost predicate Reachable(cfg: Config, s: Chain) {
    exists genesis, events :: Genesis(genesis) && ReuseFree(cfg, genesis, events) && s == Run(cfg, genesis, events)
  }

  lemma {:induction false} RunKeepsInv(cfg: Config, s: Chain, events: seq<Event>)
    requires cfg.WellFormed() && Inv(cfg, s) && ReuseFree(cfg, s, events)
    ensures Inv(cfg, Run(cfg, s, events))
  {
    if events != [] {
      RunKeepsInv(cfg, s, Init(events));
      StepInv(cfg, Run(cfg, s, Init(events)), Last(events));
    }
  }

  lemma {:induction false} ReuseFreePrefix(cfg: Config, s: Chain, events: seq<Event>, k: nat)
    requires k <= |events| && ReuseFree(cfg, s, events)
    ensures ReuseFree(cfg, s, events[..k])
  {
    if k == |events| {
      assert events[..k] == events;
    } else {
      ReuseFreePrefix(cfg, s, Init(events), k);
      assert Init(events)[..k] == events[..k];
    }
  }

  /** The invariant holds all along a run exactly when no step of it reuses a request id. */
  lemma {:induction false} InvThroughoutIffReuseFree(cfg: Config, s: Chain, events: seq<Event>)
    requires cfg.WellFormed() && Inv(cfg, s)
    ensures ReuseFree(cfg, s, events) <==> forall k :: 0 <= k <= |events| ==> Inv(cfg, Run(cfg, s, events[..k]))
  {
    if ReuseFree(cfg, s, events) {
      forall k | 0 <= k <= |events| ensures Inv(cfg, Run(cfg, s, events[..k])) {
        ReuseFreePrefix(cfg, s, events, k);
        RunKeepsInv(cfg, s, events[..k]);
      }
    } else {
      var n := |events| - 1;
      assert events[..n] == Init(events) && events[..n + 1] == events;
      if ReuseFree(cfg, s, Init(events)) {
        RunKeepsInv(cfg, s, Init(events));
        StepInv(cfg, Run(cfg, s, Init(events)), Last(events));
        assert !Inv(cfg, Run(cfg, s, events[..n + 1]));
      } else {
        InvThroughoutIffReuseFree(cfg, s, Init(events));
        var k :| 0 <= k <= n && !Inv(cfg, Run(cfg, s, Init(events)[..k]));
        assert Init(events)[..k] == events[..k];
      }
    }
  }

  /** How many requests the run accepts. */
  ghost function RequestsAccepted(cfg: Config, s: Chain, events: seq<Event>): nat {
    if events == [] then 0
    else
      var e := Last(events);
      RequestsAccepted(cfg, s, Init(events)) +
      if Accepted(cfg, Run(cfg, s, Init(events)), e) && e.call.SubmitRequest? then 1 else 0
  }

  /** A step hands out one request id if it accepts a request, and none otherwise. */
  lemma IdsAdvance(cfg: Config, s: Chain, e: Event)
    requires cfg.WellFormed() && Inv(cfg, s) && !Reuses(cfg, s, e)
    ensures Step(cfg, s, e).ai.Made() == s.ai.Made() + if Accepted(cfg, s, e) && e.call.SubmitRequest? then 1 else 0
    ensures Accepted(cfg, s, e) && e.call.SubmitInference? ==> e.call.id < s.ai.Made()
  {
    if Accepted(cfg, s, e) && e.call.SubmitRequest? {
      AcceptedRequest(cfg, s, e);
      EnqueuedIds(s.ai, RequestOf(s, e));
    } else if Accepted(cfg, s, e) && e.call.SubmitInference? {
      AcceptedInference(cfg, s, e);
    } else {
      OtherCallsLeaveQueues(cfg, s, e);
    }
  }

  /** A step that accepts a request reuses an id exactly when all ids have been handed out. */
  lemma ReusesWhenExhausted(cfg: Config, s: Chain, e: Event)
    requires Inv(cfg, s)
    ensures Reuses(cfg, s, e) <==> Accepted(cfg, s, e) && e.call.SubmitRequest? && s.ai.Made() == ID_SPACE
  {
    TakenMeansExhausted(s.ai);
  }

  lemma {:induction false} IdsHandedOut(cfg: Config, s: Chain, events: seq<Event>)
    requires cfg.WellFormed() && Inv(cfg, s) && ReuseFree(cfg, s, events)
    ensures Run(cfg, s, events).ai.Made() == s.ai.Made() + RequestsAccepted(cfg, s, events)
  {
    if events != [] {
      IdsHandedOut(cfg, s, Init(events));
      RunKeepsInv(cfg, s, Init(events));
      IdsAdvance(cfg, Run(cfg, s, Init(events)), Last(events));
    }
  }

  /** Which runs reuse an id: exactly those that accept more requests than there are ids left. */
  lemma {:induction false} ReuseFreeIffIdsLast(cfg: Config, s: Chain, events: seq<Event>)
    requires cfg.WellFormed() && Inv(cfg, s)
    ensures ReuseFree(cfg, s, events) <==> s.ai.Made() + RequestsAccepted(cfg, s, events) <= ID_SPACE
  {
    if events != [] {
      var init, p := Init(events), Run(cfg, s, Init(events));
      ReuseFreeIffIdsLast(cfg, s, init);
      if ReuseFree(cfg, s, init) {
        IdsHandedOut(cfg, s, init);
        RunKeepsInv(cfg, s, init);
        ReusesWhenExhausted(cfg, p, Last(events));
      }
    }
  }

  lemma {:induction false} AcceptedAtMostOnePerEvent(cfg: Config, s: Chain, events: seq<Event>)
    ensures RequestsAccepted(cfg, s, events) <= |events|
  {
    if events != [] {
      AcceptedAtMostOnePerEvent(cfg, s, Init(events));
    }
  }

  /** A run too short to use up the ids cannot reuse one. */
  lemma ShortRunsReuseFree(cfg: Config, s: Chain, events: seq<Event>)
    requires cfg.WellFormed() && Inv(cfg, s)
    requires s.ai.Made() + |events| <= ID_SPACE
    ensures ReuseFree(cfg, s, events)
  {
    AcceptedAtMostOnePerEvent(cfg, s, events);
    ReuseFreeIffIdsLast(cfg, s, events);
  }

  lemma ReachableInv(cfg: Config, s: Chain)
    requires cfg.WellFormed() && Reachable(cfg, s)
    ensures Inv(cfg, s)
  {
    var genesis, events :| Genesis(genesis) && ReuseFree(cfg, genesis, events) && s == Run(cfg, genesis, events);
    GenesisInv(cfg, genesis);
    RunKeepsInv(cfg, genesis, events);
  }

  lemma RunReaches(cfg: Config, genesis: Chain, events: seq<Event>)
    requires Genesis(genesis) && ReuseFree(cfg, genesis, events)
    ensures Reachable(cfg, Run(cfg, genesis, events))
  {
  }

  /** Running on: one event more. */
  lemma RunSnoc(cfg: Config, s: Chain, events: seq<Event>, e: Event)
    ensures Run(cfg, s, events + [e]) == Step(cfg, Run(cfg, s, events), e)
    ensures ReuseFree(cfg, s, events + [e]) <==> ReuseFree(cfg, s, events) && !Reuses(cfg, Run(cfg, s, events), e)
  {
    assert Init(events + [e]) == events && Last(events + [e]) == e;
  }

  lemma ReachableOn(cfg: Config, s: Chain, e: Event)
    requires Reachable(cfg, s) && !Reuses(cfg, s, e)
    ensures Reachable(cfg, Step(cfg, s, e))
  {
    var genesis, events :| Genesis(genesis) && ReuseFree(cfg, genesis, events) && s == Run(cfg, genesis, events);
    RunSnoc(cfg, genesis, events, e);
    RunReaches(cfg, genesis, events + [e]);
  }

  lemma {:induction false} BlocksAdvance(cfg: Config, s: Chain, events: seq<Event>, k: nat)
    requires k <= |events|
    ensures s.block <= Run(cfg, s, events[..k]).block <= Run(cfg, s, events).block
  {
    if k == |events| {
      assert events[..k] == events;
      if events != [] {
        BlocksAdvance(cfg, s, Init(events), k - 1);
        assert Init(events)[..k - 1] == Init(events);
      }
    } else {
      BlocksAdvance(cfg, s, Init(events), k);
      assert Init(events)[..k] == events[..k];
    }
  }

  // ---------------------------------------------------------------- identities

  /** Identities are write-once, and a worker once suspended never becomes active again. */
  lemma {:induction false} IdentitiesLast(cfg: Config, s: Chain, events: seq<Event>)
    requires cfg.WellFormed() && KiltInv(cfg, s.kilt, s.block)
    ensures KiltInv(cfg, Run(cfg, s, events).kilt, Run(cfg, s, events).block)
    ensures IdentitiesKept(s.kilt, Run(cfg, s, events).kilt)
  {
    if events != [] {
      IdentitiesLast(cfg, s, Init(events));
      KiltStep(cfg, Run(cfg, s, Init(events)), Last(events));
    }
  }

  /** After every run from genesis, whatever happens to the request ids, an account's identity is its hash. */
  lemma IdentitiesAreHashes(cfg: Config, g: Chain, events: seq<Event>, a: Account)
    requires cfg.WellFormed() && Genesis(g)
    requires a in Run(cfg, g, events).kilt.workerDids
    ensures Run(cfg, g, events).kilt.workerDids[a].did.bytes == cfg.hash(a)
    ensures a in Run(cfg, g, events).kilt.accountToDid
    ensures Run(cfg, g, events).kilt.accountToDid[a].bytes == cfg.hash(a)
  {
    var t := Run(cfg, g, events);
    assert KiltInv(cfg, g.kilt, g.block);
    IdentitiesLast(cfg, g, events);
    assert IdentityOk(cfg, t.kilt, a, t.block);
    DidIsHash(cfg, a);
  }

  // ----------------------------------------------------------------- lifecycle

  /**
   Every stored request survives with all fields but its status, completed ones stay completed,
   and results never change.
   */
  ghost predicate RecordsKept(ai: Ai, ai': Ai) {
    && (forall id <- ai.requests ::
          && id in ai'.requests
          && ai'.requests[id].(status := ai.requests[id].status) == ai.requests[id]
          && (ai.requests[id].status == RequestStatus.Completed ==> ai'.requests[id] == ai.requests[id]))
    && (forall i <- ai.results :: i in ai'.results && ai'.results[i] == ai.results[i])
  }

  lemma RecordsEnqueued(ai: Ai, request: Request)
    requires ai.nextRequestId !in ai.requests
    ensures RecordsKept(ai, ai.Enqueued(request))
  {
  }

  lemma RecordsCompleted(ai: Ai, result: InferenceResult)
    requires ai.nextInferenceId !in ai.results
    requires ai.IsOpen(result.worker, result.requestId)
    ensures RecordsKept(ai, ai.Completed(result))
  {
  }

  lemma RecordsStep(cfg: Config, s: Chain, e: Event)
    requires Inv(cfg, s) && !Reuses(cfg, s, e)
    ensures RecordsKept(s.ai, Step(cfg, s, e).ai)
  {
    if Accepted(cfg, s, e) && e.call.SubmitRequest? {
      AcceptedRequest(cfg, s, e);
      RecordsEnqueued(s.ai, RequestOf(s, e));
    } else if Accepted(cfg, s, e) && e.call.SubmitInference? {
      AcceptedInference(cfg, s, e);
      InferenceIdsSuffice(cfg, s.ai, e.origin.who, e.call.id);
      RecordsCompleted(s.ai, ResultOf(cfg, s, e));
    } else {
      OtherCallsLeaveQueues(cfg, s, e);
    }
  }

  /** Records last over every run that accepts no more requests than ids are left: over every run that reuses none. */
  lemma {:induction false} Lifecycle(cfg: Config, s: Chain, events: seq<Event>)
    requires cfg.WellFormed() && Inv(cfg, s)
    requires s.ai.Made() + RequestsAccepted(cfg, s, events) <= ID_SPACE
    ensures RecordsKept(s.ai, Run(cfg, s, events).ai)
  {
    ReuseFreeIffIdsLast(cfg, s, events);
    if events != [] {
      Lifecycle(cfg, s, Init(events));
      RunKeepsInv(cfg, s, Init(events));
      RecordsStep(cfg, Run(cfg, s, Init(events)), Last(events));
    }
  }

  // ------------------------------------------------------------ queue histories

  /** The id a step queues for `w`, if it accepts a request for it. */
  ghost function Arriving(cfg: Config, p: Chain, e: Event, w: Account): seq<u32> {
    if Accepted(cfg, p, e) && e.call.SubmitRequest? && e.call.target == w then [p.ai.nextRequestId] else []
  }

  /** The id of the request `w` completes in a step, if it does. */
  ghost function Departing(cfg: Config, p: Chain, e: Event, w: Account): seq<u32> {
    if Accepted(cfg, p, e) && e.call.SubmitInference? && e.origin == Signed(w) then [e.call.id] else []
  }

  /** The ids of the requests accepted for `w` along a run, oldest first. */
  ghost function RequestsFor(cfg: Config, s: Chain, events: seq<Event>, w: Account): seq<u32> {
    if events == [] then []
    else
      RequestsFor(cfg, s, Init(events), w) + Arriving(cfg, Run(cfg, s, Init(events)), Last(events), w)
  }

  /** The ids of the requests `w` completed along a run, oldest first. */
  ghost function CompletionsBy(cfg: Config, s: Chain, events: seq<Event>, w: Account): seq<u32> {
    if events == [] then []
    else
      CompletionsBy(cfg, s, Init(events), w) + Departing(cfg, Run(cfg, s, Init(events)), Last(events), w)
  }

  function Members(ids: seq<u32>): set<u32> {
    set id | id in ids
  }

  /** How one step changes one worker's queue: appended to, one id taken out, or untouched. */
  lemma QueueStep(cfg: Config, s: Chain, e: Event, w: Account)
    requires cfg.WellFormed() && Inv(cfg, s)
    ensures Step(cfg, s, e).ai.Queue(w) ==
            if Accepted(cfg, s, e) && e.call.SubmitRequest? && e.call.target == w
              then s.ai.Queue(w) + [s.ai.nextRequestId]
            else if Accepted(cfg, s, e) && e.call.SubmitInference? && e.origin == Signed(w)
              then Exclude(s.ai.Queue(w), {e.call.id})
            else s.ai.Queue(w)
    ensures Accepted(cfg, s, e) && e.call.SubmitInference? && e.origin == Signed(w) ==>
            e.call.id in s.ai.Queue(w) && |Exclude(s.ai.Queue(w), {e.call.id})| == |s.ai.Queue(w)| - 1
  {
    assert QueueIndexes(cfg, s.ai, w);
    if Accepted(cfg, s, e) && e.call.SubmitRequest? {
      AcceptedRequest(cfg, s, e);
    } else if Accepted(cfg, s, e) && e.call.SubmitInference? {
      AcceptedInference(cfg, s, e);
      CompletedQueues(cfg, s.ai, ResultOf(cfg, s, e), w);
      if e.origin.who == w {
        var before, after := ExcludeOne(s.ai.Queue(w), e.call.id);
      }
    } else {
      OtherCallsLeaveQueues(cfg, s, e);
    }
  }

  /** A queue accounts for its past: its start and arrivals in order, less what is done. */
  ghost predicate AccountsFor(queue: seq<u32>, start: seq<u32>, arrived: seq<u32>, done: seq<u32>) {
    && queue == Exclude(start + arrived, Members(done))
    && |queue| + |done| == |start| + |arrived|
  }

  lemma Arrival(queue: seq<u32>, start: seq<u32>, arrived: seq<u32>, done: seq<u32>, id: u32)
    requires AccountsFor(queue, start, arrived, done) && id !in done
    ensures AccountsFor(queue + [id], start, arrived + [id], done)
  {
    var all := start + arrived;
    assert start + (arrived + [id]) == all + [id];
    assert (all + [id])[..|all|] == all;
  }

  lemma Departure(queue: seq<u32>, start: seq<u32>, arrived: seq<u32>, done: seq<u32>, id: u32)
    requires AccountsFor(queue, start, arrived, done)
    requires |Exclude(queue, {id})| == |queue| - 1
    ensures AccountsFor(Exclude(queue, {id}), start, arrived, done + [id])
  {
    ExcludeCompose(start + arrived, Members(done), {id});
    assert Members(done + [id]) == Members(done) + {id};
  }

  lemma QueueContinues(
    cfg: Config, p: Chain, e: Event, w: Account, start: seq<u32>, arrived: seq<u32>, done: seq<u32>)
    requires cfg.WellFormed() && Inv(cfg, p) && !Reuses(cfg, p, e)
    requires AccountsFor(p.ai.Queue(w), start, arrived, done) && forall id <- done :: id < p.ai.Made()
    ensures AccountsFor(Step(cfg, p, e).ai.Queue(w), start,
                        arrived + Arriving(cfg, p, e, w), done + Departing(cfg, p, e, w))
    ensures forall id <- done + Departing(cfg, p, e, w) :: id < Step(cfg, p, e).ai.Made()
  {
    QueueStep(cfg, p, e, w);
    IdsAdvance(cfg, p, e);
    assert arrived + [] == arrived && done + [] == done;
    if Accepted(cfg, p, e) && e.call.SubmitRequest? && e.call.target == w {
      Arrival(p.ai.Queue(w), start, arrived, done, p.ai.nextRequestId);
    } else if Accepted(cfg, p, e) && e.call.SubmitInference? && e.origin == Signed(w) {
      Departure(p.ai.Queue(w), start, arrived, done, e.call.id);
    }
  }

  /**
   Whatever happens in between, a worker's queue is what it held at the start followed by the
   requests accepted for it since, in order, less exactly the ones it completed; and each
   completion freed one slot.
   */
  lemma {:induction false} QueueHistory(cfg: Config, s: Chain, events: seq<Event>, w: Account)
    requires cfg.WellFormed() && Inv(cfg, s) && ReuseFree(cfg, s, events)
    ensures AccountsFor(Run(cfg, s, events).ai.Queue(w), s.ai.Queue(w),
                        RequestsFor(cfg, s, events, w), CompletionsBy(cfg, s, events, w))
    ensures forall id <- CompletionsBy(cfg, s, events, w) :: id < Run(cfg, s, events).ai.Made()
  {
    var start := s.ai.Queue(w);
    if events == [] {
      assert start + [] == start && Members([]) == {};
      ExcludeAbsent(start, {});
    } else {
      var p, e := Run(cfg, s, Init(events)), Last(events);
      var arrived, done := RequestsFor(cfg, s, Init(events), w), CompletionsBy(cfg, s, Init(events), w);
      QueueHistory(cfg, s, Init(events), w);
      RunKeepsInv(cfg, s, Init(events));
      QueueContinues(cfg, p, e, w, start, arrived, done);
    }
  }

  /** With no new requests, a queue is empty after exactly as many completions as it had entries, in whatever order. */
  lemma QueueDrains(cfg: Config, s: Chain, events: seq<Event>, w: Account)
    requires cfg.WellFormed() && Inv(cfg, s) && ReuseFree(cfg, s, events)
    requires RequestsFor(cfg, s, events, w) == []
    ensures |CompletionsBy(cfg, s, events, w)| <= |s.ai.Queue(w)|
    ensures Run(cfg, s, events).ai.Queue(w) == [] <==> |CompletionsBy(cfg, s, events, w)| == |s.ai.Queue(w)|
    ensures Run(cfg, s, events).ai.Queue(w) == Exclude(s.ai.Queue(w), Members(CompletionsBy(cfg, s, events, w)))
  {
    QueueHistory(cfg, s, events, w);
    assert s.ai.Queue(w) + [] == s.ai.Queue(w);
  }

  // ---------------------------------------------------------------- provenance

  /**
   Event `e` in state `p` is the acceptance that stored request `r` under `id`: its worker's DID
   verified and it had room.
   */
  ghost predicate StoresRequest(cfg: Config, p: Chain, e: Event, id: u32, r: Request) {
    && e == Extrinsic(Signed(r.customer), SubmitRequest(r.targetWorker, r.prompt, r.maxTokens))
    && p.ai.nextRequestId == id && p.block == r.createdAt
    && p.kilt.GetWorkerDid(r.targetWorker) == Ok(DidOf(cfg, r.targetWorker))
    && p.kilt.Verify(DidOf(cfg, r.targetWorker), p.block) == Ok(true)
    && |p.ai.Queue(r.targetWorker)| < cfg.maxQueueSize
  }

  /**
   Event `e` in state `p` is the submission that stored result `r` under `i`: its worker's DID
   verified and the request was open.
   */
  ghost predicate StoresResult(cfg: Config, p: Chain, e: Event, i: u32, r: InferenceResult) {
    && e == Extrinsic(Signed(r.worker), SubmitInference(r.requestId, r.output))
    && p.ai.nextInferenceId == i && p.block == r.submittedAt
    && r.workerDid == DidOf(cfg, r.worker)
    && p.kilt.GetWorkerDid(r.worker) == Ok(r.workerDid)
    && p.kilt.Verify(r.workerDid, p.block) == Ok(true)
    && p.ai.IsOpen(r.worker, r.requestId)
  }

  lemma NewRequestWasAccepted(cfg: Config, p: Chain, e: Event, id: u32)
    requires cfg.WellFormed() && Inv(cfg, p)
    requires id in Step(cfg, p, e).ai.requests && id !in p.ai.requests
    ensures StoresRequest(cfg, p, e, id, Step(cfg, p, e).ai.requests[id])
  {
    if Accepted(cfg, p, e) && e.call.SubmitRequest? {
      AcceptedRequest(cfg, p, e);
      assert IdentityOk(cfg, p.kilt, e.call.target, p.block);
    } else if Accepted(cfg, p, e) && e.call.SubmitInference? {
      AcceptedInference(cfg, p, e);
      assert false;
    } else {
      OtherCallsLeaveQueues(cfg, p, e);
      assert false;
    }
  }

  lemma NewResultWasEarned(cfg: Config, p: Chain, e: Event, i: u32)
    requires cfg.WellFormed() && Inv(cfg, p)
    requires i in Step(cfg, p, e).ai.results && i !in p.ai.results
    ensures StoresResult(cfg, p, e, i, Step(cfg, p, e).ai.results[i])
  {
    if Accepted(cfg, p, e) && e.call.SubmitInference? {
      AcceptedInference(cfg, p, e);
      assert IdentityOk(cfg, p.kilt, e.origin.who, p.block);
    } else if Accepted(cfg, p, e) && e.call.SubmitRequest? {
      AcceptedRequest(cfg, p, e);
      assert false;
    } else {
      OtherCallsLeaveQueues(cfg, p, e);
      assert false;
    }
  }

  /** A request found after a step was stored by it, or was there before with the same fields but perhaps its status. */
  lemma RequestSource(cfg: Config, p: Chain, e: Event, id: u32)
    requires cfg.WellFormed() && Reachable(cfg, p) && !Reuses(cfg, p, e)
    requires id in Step(cfg, p, e).ai.requests
    ensures id in p.ai.requests ==>
      Step(cfg, p, e).ai.requests[id].(status := p.ai.requests[id].status) == p.ai.requests[id]
    ensures id !in p.ai.requests ==> StoresRequest(cfg, p, e, id, Step(cfg, p, e).ai.requests[id])
  {
    ReachableInv(cfg, p);
    RecordsStep(cfg, p, e);
    if id !in p.ai.requests {
      NewRequestWasAccepted(cfg, p, e, id);
    }
  }

  lemma ResultSource(cfg: Config, p: Chain, e: Event, i: u32)
    requires cfg.WellFormed() && Reachable(cfg, p) && !Reuses(cfg, p, e)
    requires i in Step(cfg, p, e).ai.results
    ensures i in p.ai.results ==> Step(cfg, p, e).ai.results[i] == p.ai.results[i]
    ensures i !in p.ai.results ==> StoresResult(cfg, p, e, i, Step(cfg, p, e).ai.results[i])
  {
    ReachableInv(cfg, p);
    RecordsStep(cfg, p, e);
    if i !in p.ai.results {
      NewResultWasEarned(cfg, p, e, i);
    }
  }

  lemma StoredUnderAnyStatus(cfg: Config, p: Chain, e: Event, id: u32, r: Request, r': Request)
    requires StoresRequest(cfg, p, e, id, r) && r'.(status := r.status) == r
    ensures StoresRequest(cfg, p, e, id, r')
  {
  }

  /** Every stored request was accepted at some step of the run. */
  lemma {:induction false} RequestWasAccepted(cfg: Config, g: Chain, events: seq<Event>, id: u32) returns (k: nat)
    requires cfg.WellFormed() && Genesis(g) && ReuseFree(cfg, g, events)
    requires id in Run(cfg, g, events).ai.requests
    ensures k < |events|
    ensures StoresRequest(cfg, Run(cfg, g, events[..k]), events[k], id, Run(cfg, g, events).ai.requests[id])
  {
    var p, e := Run(cfg, g, Init(events)), Last(events);
    RunReaches(cfg, g, Init(events));
    RequestSource(cfg, p, e, id);
    if id in p.ai.requests {
      k := RequestWasAccepted(cfg, g, Init(events), id);
      assert Init(events)[..k] == events[..k];
      StoredUnderAnyStatus(cfg, Run(cfg, g, events[..k]), events[k], id,
                           p.ai.requests[id], Step(cfg, p, e).ai.requests[id]);
    } else {
      k := |events| - 1;
      assert events[..k] == Init(events);
    }
  }

  /** Every stored result was earned at some step of the run. */
  lemma {:induction false} ResultWasEarned(cfg: Config, g: Chain, events: seq<Event>, i: u32) returns (k: nat)
    requires cfg.WellFormed() && Genesis(g) && ReuseFree(cfg, g, events)
    requires i in Run(cfg, g, events).ai.results
    ensures k < |events|
    ensures StoresResult(cfg, Run(cfg, g, events[..k]), events[k], i, Run(cfg, g, events).ai.results[i])
  {
    var p, e := Run(cfg, g, Init(events)), Last(events);
    RunReaches(cfg, g, Init(events));
    ResultSource(cfg, p, e, i);
    if i in p.ai.results {
      k := ResultWasEarned(cfg, g, Init(events), i);
      assert Init(events)[..k] == events[..k];
    } else {
      k := |events| - 1;
      assert events[..k] == Init(events);
    }
  }

  // ------------------------------------------------- where the registry came from

  /** A sudo call that replaces or removes this DID's credential. */
  predicate ReplacesCredential(e: Event, d: Did) {
    && e.Extrinsic? && e.origin.Root?
    && match e.call
       case IssueWorkerCredential(did, models, _) => did == d && |models| <= MAX_MODELS
       case RevokeWorkerCredential(did) => did == d
       case _ => false
  }

  /** Event `e` in state `p` issued credential `c`: by sudo, in the governance DID's name, for the period it asked. */
  predicate IssuesCredential(p: Chain, e: Event, d: Did, c: Credential) {
    && ReplacesCredential(e, d) && e.call.IssueWorkerCredential?
    && c.models == e.call.models
    && c.issuer == p.kilt.governanceDid
    && c.subject == d
    && c.issuedAt == p.block
    && c.expiresAt == if e.call.validity.Some? then Some(SatAdd(p.block, e.call.validity.value)) else None
  }

  lemma CredentialSource(cfg: Config, p: Chain, e: Event, d: Did)
    ensures !ReplacesCredential(e, d) ==>
      && (d in Step(cfg, p, e).kilt.credentials <==> d in p.kilt.credentials)
      && (d in p.kilt.credentials ==> Step(cfg, p, e).kilt.credentials[d] == p.kilt.credentials[d])
    ensures ReplacesCredential(e, d) && d in Step(cfg, p, e).kilt.credentials ==>
      IssuesCredential(p, e, d, Step(cfg, p, e).kilt.credentials[d])
    ensures ReplacesCredential(e, d) ==>
      (d in Step(cfg, p, e).kilt.credentials <==> e.call.IssueWorkerCredential?)
  {
  }

  /** A stored credential is the one sudo last issued for its DID, and has not been revoked since. */
  lemma {:induction false} CredentialWasIssued(cfg: Config, g: Chain, events: seq<Event>, d: Did) returns (k: nat)
    requires Genesis(g)
    requires d in Run(cfg, g, events).kilt.credentials
    ensures k < |events|
    ensures IssuesCredential(Run(cfg, g, events[..k]), events[k], d, Run(cfg, g, events).kilt.credentials[d])
    ensures forall m :: k < m < |events| ==> !ReplacesCredential(events[m], d)
  {
    var p, e := Run(cfg, g, Init(events)), Last(events);
    CredentialSource(cfg, p, e, d);
    if ReplacesCredential(e, d) {
      k := |events| - 1;
      assert events[..k] == Init(events);
    } else {
      k := CredentialWasIssued(cfg, g, Init(events), d);
      assert Init(events)[..k] == events[..k];
    }
  }

  /** A sudo call that names a governance DID. */
  predicate SetsGovernance(e: Event) {
    e.Extrinsic? && e.origin.Root? && e.call.SetGovernanceDid?
  }

  /** No event from position `from` on names a governance DID. */
  predicate GovernanceRests(events: seq<Event>, from: nat) {
    forall m :: from <= m < |events| ==> !SetsGovernance(events[m])
  }

  lemma GovernanceStep(cfg: Config, p: Chain, e: Event)
    ensures Step(cfg, p, e).kilt.governanceDid == if SetsGovernance(e) then e.call.did else p.kilt.governanceDid
  {
  }

  /** The governance DID is the one sudo named last, after the first `n` events, or the initial one if `n` is zero. */
  lemma {:induction false} GovernanceNamedLast(cfg: Config, s: Chain, events: seq<Event>) returns (n: nat)
    ensures n <= |events| && GovernanceRests(events, n)
    ensures var did := Run(cfg, s, events).kilt.governanceDid;
            if n == 0 then did == s.kilt.governanceDid
            else events[n - 1] == Extrinsic(Root, SetGovernanceDid(did))
  {
    if events == [] {
      n := 0;
    } else {
      GovernanceStep(cfg, Run(cfg, s, Init(events)), Last(events));
      if SetsGovernance(Last(events)) {
        n := |events|;
      } else {
        n := GovernanceNamedLast(cfg, s, Init(events));
        assert forall m :: 0 <= m < |events| - 1 ==> Init(events)[m] == events[m];
      }
    }
  }

  /** A stored credential was issued in the name of the governance DID in force then, whatever was named since. */
  lemma IssuerInForce(cfg: Config, g: Chain, events: seq<Event>, d: Did) returns (n: nat, k: nat)
    requires Genesis(g)
    requires d in Run(cfg, g, events).kilt.credentials
    ensures n <= k < |events| && GovernanceRests(events[..k], n)
    ensures IssuesCredential(Run(cfg, g, events[..k]), events[k], d, Run(cfg, g, events).kilt.credentials[d])
    ensures var issuer := Run(cfg, g, events).kilt.credentials[d].issuer;
            if n == 0 then issuer == g.kilt.governanceDid
            else events[n - 1] == Extrinsic(Root, SetGovernanceDid(issuer))
  {
    k := CredentialWasIssued(cfg, g, events, d);
    n := GovernanceNamedLast(cfg, g, events[..k]);
  }

  /** Event `e` in state `p` is the registration that stored identity `w` for account `a`. */
  predicate RegistersWorker(cfg: Config, p: Chain, e: Event, a: Account, w: WorkerDid) {
    && e == Extrinsic(Signed(a), CreateWorkerDid(w.metadata.name, w.metadata.description))
    && a !in p.kilt.workerDids
    && w.did == DidOf(cfg, a) && w.account == a
    && w.metadata.registeredAt == p.block
  }

  lemma IdentitySource(cfg: Config, p: Chain, e: Event, a: Account)
    requires cfg.WellFormed() && KiltInv(cfg, p.kilt, p.block)
    requires a in Step(cfg, p, e).kilt.workerDids
    ensures a !in p.kilt.workerDids ==> RegistersWorker(cfg, p, e, a, Step(cfg, p, e).kilt.workerDids[a])
  {
    if !(Accepted(cfg, p, e) && (e.call.CreateWorkerDid? || e.call.SuspendWorker?)) {
      OtherCallsLeaveIdentities(cfg, p, e);
    }
  }

  /** After the last event of a run from genesis, an identity is new from that event or kept from before it. */
  lemma IdentityKeptOrNew(cfg: Config, g: Chain, events: seq<Event>, a: Account)
    requires cfg.WellFormed() && Genesis(g) && events != []
    requires a in Run(cfg, g, events).kilt.workerDids
    ensures var p, t := Run(cfg, g, Init(events)), Run(cfg, g, events);
            if a in p.kilt.workerDids
            then t.kilt.workerDids[a].(status := p.kilt.workerDids[a].status) == p.kilt.workerDids[a]
            else RegistersWorker(cfg, p, Last(events), a, t.kilt.workerDids[a])
  {
    var p := Run(cfg, g, Init(events));
    assert KiltInv(cfg, g.kilt, g.block);
    IdentitiesLast(cfg, g, Init(events));
    KiltStep(cfg, p, Last(events));
    IdentitySource(cfg, p, Last(events), a);
  }

  lemma RegisteredUnderAnyStatus(cfg: Config, p: Chain, e: Event, a: Account, w: WorkerDid, w': WorkerDid)
    requires RegistersWorker(cfg, p, e, a, w) && w'.(status := w.status) == w
    ensures RegistersWorker(cfg, p, e, a, w')
  {
  }

  /** Every identity was registered once, by its own account. */
  lemma {:induction false} WorkerRegistered(cfg: Config, g: Chain, events: seq<Event>, a: Account) returns (k: nat)
    requires cfg.WellFormed() && Genesis(g)
    requires a in Run(cfg, g, events).kilt.workerDids
    ensures k < |events|
    ensures RegistersWorker(cfg, Run(cfg, g, events[..k]), events[k], a, Run(cfg, g, events).kilt.workerDids[a])
  {
    var p := Run(cfg, g, Init(events));
    IdentityKeptOrNew(cfg, g, events, a);
    if a in p.kilt.workerDids {
      k := WorkerRegistered(cfg, g, Init(events), a);
      assert Init(events)[..k] == events[..k];
      RegisteredUnderAnyStatus(cfg, Run(cfg, g, events[..k]), events[k], a,
                               p.kilt.workerDids[a], Run(cfg, g, events).kilt.workerDids[a]);
    } else {
      k := |events| - 1;
      assert events[..k] == Init(events);
    }
  }

  // ------------------------------------------------------------ the machine runs

  /** Block by block and call by call, the machine with its roll-back goes through exactly the run. */
  method Replay(runtime: Runtime, events: seq<Event>)
    requires runtime.Sound()
    requires forall e <- events :: !e.Elsewhere?
    modifies runtime, runtime.kilt, runtime.ai, runtime.faucet, runtime.bank
    ensures runtime.Sound()
    ensures runtime.State() == Run(runtime.cfg, old(runtime.State()), events)
  {
    for k := 0 to |events|
      invariant runtime.Sound()
      invariant runtime.State() == Run(runtime.cfg, old(runtime.State()), events[..k])
    {
      assert Init(events[..k + 1]) == events[..k] && Last(events[..k + 1]) == events[k];
      assert events[k] in events;
      match events[k] {
        case NewBlock(number) => runtime.BeginBlock(number);
        case Extrinsic(origin, call) => var reported := runtime.Dispatch(origin, call);
      }
    }
    assert events[..|events|] == events;
  }
}
