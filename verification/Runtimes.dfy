/**
 The runtime: the pallets composed over one block number and one ledger, and dispatch, which
 commits a call's writes or none of them.
 */
module Runtimes {
  import opened Primitives
  import opened Kilts
  import opened Ais
  import opened Balances
  import opened Faucets

  const MILLI_SECS_PER_BLOCK := 6000
  const MINUTES := 60_000 / MILLI_SECS_PER_BLOCK
  const HOURS := MINUTES * 60
  const DAYS := HOURS * 24
  const EXISTENTIAL_DEPOSIT := 500
  const FAUCET_DRIP_AMOUNT := 10_000_000_000_000
  const FAUCET_CLAIM_COOLDOWN := 14400
  const FAUCET_MAX_CLAIMS := 5

  /** The fixed pot account, "qx/faucet" padded with zeros. */
  function FaucetPotAccount(): Account {
    AccountId32([0x71, 0x78, 0x2f, 0x66, 0x61, 0x75, 0x63, 0x65, 0x74] + seq(23, _ => 0))
  }

  /** The configuration this runtime gives its pallets. */
  function QxConfig(hash: Account -> Bytes): Config {
    Config(hash, 100, 1 * DAYS, FAUCET_DRIP_AMOUNT, FAUCET_CLAIM_COOLDOWN, FAUCET_MAX_CLAIMS,
           FaucetPotAccount(), EXISTENTIAL_DEPOSIT)
  }

  /** The assumption on the hash can be met: with 32-byte accounts there is room for it. */
  lemma CollisionFreeHashExists()
    ensures QxConfig((a: Account) => a.bytes).WellFormed()
  {
  }

  datatype Call =
    | SetGovernanceDid(did: Did)
    | CreateWorkerDid(name: Bytes, description: Bytes)
    | IssueWorkerCredential(did: Did, models: seq<u32>, validity: Option<u32>)
    | RevokeWorkerCredential(did: Did)
    | SuspendWorker(did: Did, duration: Option<u32>)
    | SubmitRequest(target: Account, prompt: Bytes, maxTokens: u32)
    | UpdateAiWorkerStatus(flag: bool)
    | SubmitInference(id: u32, output: Bytes)
    | Claim(account: Account)
    | FundFaucet(amount: u128)

  /** What can happen next: a block begins, balances change elsewhere in the runtime, or a call is dispatched. */
  datatype Event =
    | NewBlock(number: u32)
    | Elsewhere(ledger: Ledger)
    | Extrinsic(origin: Origin, call: Call)

  datatype Chain = Chain(block: u32, kilt: Kilt, ai: Ai, faucet: Faucet, ledger: Ledger)

  function OnKilt(s: Chain, outcome: Result<Kilt>): Result<Chain> {
    if outcome.Ok? then Ok(s.(kilt := outcome.value)) else Err(outcome.error)
  }

  function OnAi(s: Chain, outcome: Result<Ai>): Result<Chain> {
    if outcome.Ok? then Ok(s.(ai := outcome.value)) else Err(outcome.error)
  }

  function OnLedger(s: Chain, outcome: Result<Ledger>): Result<Chain> {
    if outcome.Ok? then Ok(s.(ledger := outcome.value)) else Err(outcome.error)
  }

  function OnFaucet(s: Chain, outcome: Result<(Faucet, Ledger)>): Result<Chain> {
    if outcome.Ok? then Ok(s.(faucet := outcome.value.0, ledger := outcome.value.1)) else Err(outcome.error)
  }

  /** The outcome of a call: the state it commits, or the error it is rejected with. */
  ghost function Apply(cfg: Config, s: Chain, origin: Origin, call: Call): Result<Chain> {
    match call
    case SetGovernanceDid(did) => OnKilt(s, s.kilt.SetGovernanceDid(origin, did))
    case CreateWorkerDid(name, description) =>
      OnKilt(s, s.kilt.CreateWorkerDid(cfg, s.block, origin, name, description))
    case IssueWorkerCredential(did, models, validity) =>
      OnKilt(s, s.kilt.IssueWorkerCredential(s.block, origin, did, models, validity))
    case RevokeWorkerCredential(did) => OnKilt(s, s.kilt.RevokeWorkerCredential(origin, did))
    case SuspendWorker(did, duration) => OnKilt(s, s.kilt.SuspendWorker(cfg, s.block, origin, did, duration))
    case SubmitRequest(target, prompt, maxTokens) =>
      OnAi(s, s.ai.SubmitRequest(cfg, s.kilt, s.block, origin, target, prompt, maxTokens))
    case UpdateAiWorkerStatus(flag) => OnAi(s, s.ai.UpdateAiWorkerStatus(s.kilt, s.block, origin, flag))
    case SubmitInference(id, output) => OnAi(s, s.ai.SubmitInference(s.kilt, s.block, origin, id, output))
    case Claim(account) => OnFaucet(s, s.faucet.Claim(cfg, s.ledger, s.block, origin, account))
    case FundFaucet(amount) => OnLedger(s, s.faucet.FundFaucet(cfg, s.ledger, origin, amount))
  }

  /** One step. Block numbers never decrease; balance changes elsewhere keep the issuance in range. */
  ghost function Step(cfg: Config, s: Chain, e: Event): Chain {
    match e
    case NewBlock(number) => if number >= s.block then s.(block := number) else s
    case Elsewhere(ledger) => if LedgerInv(ledger) then s.(ledger := ledger) else s
    case Extrinsic(origin, call) => After(s, Apply(cfg, s, origin, call))
  }

  ghost predicate Accepted(cfg: Config, s: Chain, e: Event) {
    e.Extrinsic? && Apply(cfg, s, e.origin, e.call).Ok?
  }

  // ---------------------------------------------------------------- invariant

  /** A stored request was made for a registered worker, at or before this block. */
  ghost predicate RequestOrigin(s: Chain, id: u32)
    requires id in s.ai.requests
  {
    s.ai.requests[id].createdAt <= s.block && s.ai.requests[id].targetWorker in s.kilt.accountToDid
  }

  /** A stored result carries its worker's DID and was submitted between its request and now. */
  ghost predicate ResultOrigin(cfg: Config, s: Chain, i: u32)
    requires i in s.ai.results && s.ai.results[i].requestId in s.ai.requests
  {
    var r := s.ai.results[i];
    && r.worker in s.kilt.accountToDid
    && r.workerDid == s.kilt.accountToDid[r.worker] == DidOf(cfg, r.worker)
    && s.ai.requests[r.requestId].createdAt <= r.submittedAt <= s.block
  }

  ghost predicate Provenance(cfg: Config, s: Chain) {
    && (forall id <- s.ai.requests :: RequestOrigin(s, id))
    && (forall i <- s.ai.results :: s.ai.results[i].requestId in s.ai.requests && ResultOrigin(cfg, s, i))
  }

  ghost predicate Inv(cfg: Config, s: Chain) {
    && KiltInv(cfg, s.kilt, s.block)
    && AiInv(cfg, s.ai)
    && FaucetInv(cfg, s.faucet, s.block)
    && LedgerInv(s.ledger)
    && Provenance(cfg, s)
  }

  /** A chain that has dispatched nothing yet, with any balances and any governance DID. */
  ghost predicate Genesis(s: Chain) {
    && s.block == 0
    && s.kilt.workerDids == map[] && s.kilt.accountToDid == map[] && s.kilt.credentials == map[]
    && s.ai == Ai(0, 0, map[], map[], map[], map[], map[])
    && s.faucet == Faucet(map[], map[])
    && LedgerInv(s.ledger)
  }

  lemma GenesisInv(cfg: Config, s: Chain)
    requires Genesis(s)
    ensures Inv(cfg, s)
  {
    assert KiltInv(cfg, s.kilt, s.block);
    assert QueueLengths(s.ai) == map[];
    assert AiInv(cfg, s.ai);
    assert FaucetInv(cfg, s.faucet, s.block);
    assert Provenance(cfg, s);
  }

  /** The one step that leaves the reachable shape: a request accepted under an id that is already stored. */
  ghost predicate Reuses(cfg: Config, s: Chain, e: Event) {
    Accepted(cfg, s, e) && e.call.SubmitRequest? && s.ai.nextRequestId in s.ai.requests
  }

  lemma KiltStep(cfg: Config, s: Chain, e: Event)
    requires cfg.WellFormed() && KiltInv(cfg, s.kilt, s.block)
    ensures KiltInv(cfg, Step(cfg, s, e).kilt, Step(cfg, s, e).block)
    ensures IdentitiesKept(s.kilt, Step(cfg, s, e).kilt)
  {
    var s' := Step(cfg, s, e);
    if Accepted(cfg, s, e) && e.call.CreateWorkerDid? {
      CreateKeepsInv(cfg, s.kilt, s.block, e.origin, e.call.name, e.call.description);
    } else if Accepted(cfg, s, e) && e.call.SuspendWorker? {
      var period := if e.call.duration.Some? then e.call.duration.value else cfg.workerSuspensionPeriod;
      SuspendKeepsInv(cfg, s.kilt, s.block, e.call.did, SatAdd(s.block, period));
    } else {
      OtherCallsLeaveIdentities(cfg, s, e);
      CredentialsKeepInv(cfg, s.kilt, s.block, s'.block, s'.kilt);
    }
  }

  lemma OnlyKiltCallsTouchKilt(cfg: Config, s: Chain, e: Event)
    requires !(e.Extrinsic? && IsKiltCall(e.call))
    ensures Step(cfg, s, e).kilt == s.kilt && s.block <= Step(cfg, s, e).block
  {
  }

  lemma OtherCallsLeaveIdentities(cfg: Config, s: Chain, e: Event)
    requires !(Accepted(cfg, s, e) && (e.call.CreateWorkerDid? || e.call.SuspendWorker?))
    ensures Step(cfg, s, e).kilt.workerDids == s.kilt.workerDids
    ensures Step(cfg, s, e).kilt.accountToDid == s.kilt.accountToDid
    ensures s.block <= Step(cfg, s, e).block
    ensures forall d <- Step(cfg, s, e).kilt.credentials ::
      (d in s.kilt.credentials && Step(cfg, s, e).kilt.credentials[d] == s.kilt.credentials[d]) ||
      (Step(cfg, s, e).kilt.credentials[d].subject == d && Step(cfg, s, e).kilt.credentials[d].issuedAt <= s.block)
  {
    if !(e.Extrinsic? && IsKiltCall(e.call)) {
      OnlyKiltCallsTouchKilt(cfg, s, e);
    }
  }

  lemma FaucetStep(cfg: Config, s: Chain, e: Event)
    requires FaucetInv(cfg, s.faucet, s.block)
    ensures FaucetInv(cfg, Step(cfg, s, e).faucet, Step(cfg, s, e).block)
  {
    var s' := Step(cfg, s, e);
    if Accepted(cfg, s, e) && e.call.Claim? {
      ClaimedKeepsInv(cfg, s.faucet, s.block, e.call.account);
    } else {
      forall a <- s'.faucet.lastClaim
        ensures RecordOk(cfg, s'.faucet.claimCount[a], s'.faucet.lastClaim[a], s'.block)
      {
        assert RecordOk(cfg, s.faucet.claimCount[a], s.faucet.lastClaim[a], s.block);
      }
    }
  }

  lemma LedgerStep(cfg: Config, s: Chain, e: Event)
    requires LedgerInv(s.ledger)
    ensures LedgerInv(Step(cfg, s, e).ledger)
  {
    if Accepted(cfg, s, e) && e.call.Claim? {
      TransferConserves(cfg, s.ledger, cfg.faucetPot, e.call.account, cfg.dripAmount);
    } else if Accepted(cfg, s, e) && e.call.FundFaucet? {
      TransferConserves(cfg, s.ledger, e.origin.who, cfg.faucetPot, e.call.amount);
    }
  }

  /** What accepting a request means: the target's DID verified, it had room, and the request was stored and queued. */
  lemma AcceptedRequest(cfg: Config, s: Chain, e: Event)
    requires Accepted(cfg, s, e) && e.call.SubmitRequest?
    ensures e.origin.Signed? && e.call.target in s.kilt.accountToDid
    ensures s.kilt.Verify(s.kilt.accountToDid[e.call.target], s.block) == Ok(true)
    ensures |s.ai.Queue(e.call.target)| < cfg.maxQueueSize
    ensures Step(cfg, s, e) == s.(ai := s.ai.Enqueued(RequestOf(s, e)))
  {
  }

  /** What accepting an inference means: the caller's DID verified, the request was open for it and got completed. */
  lemma AcceptedInference(cfg: Config, s: Chain, e: Event)
    requires KiltInv(cfg, s.kilt, s.block)
    requires Accepted(cfg, s, e) && e.call.SubmitInference?
    ensures e.origin.Signed? && s.ai.IsOpen(e.origin.who, e.call.id)
    ensures e.origin.who in s.kilt.accountToDid
    ensures s.kilt.accountToDid[e.origin.who] == DidOf(cfg, e.origin.who)
    ensures s.kilt.Verify(DidOf(cfg, e.origin.who), s.block) == Ok(true)
    ensures Step(cfg, s, e) == s.(ai := s.ai.Completed(ResultOf(cfg, s, e)))
  {
    assert IdentityOk(cfg, s.kilt, e.origin.who, s.block);
  }

  /** The request a submission stores when accepted. */
  function RequestOf(s: Chain, e: Event): Request
    requires e.Extrinsic? && e.origin.Signed? && e.call.SubmitRequest?
  {
    Request(e.origin.who, e.call.target, e.call.prompt, e.call.maxTokens, RequestStatus.Queued, s.block)
  }

  /** The result an inference stores when accepted. */
  function ResultOf(cfg: Config, s: Chain, e: Event): InferenceResult
    requires e.Extrinsic? && e.origin.Signed? && e.call.SubmitInference?
  {
    InferenceResult(
      e.call.id, e.origin.who, DidOf(cfg, e.origin.who), e.call.output, InferenceStatus.Completed, s.block)
  }

  lemma AiStep(cfg: Config, s: Chain, e: Event)
    requires cfg.WellFormed() && Inv(cfg, s)
    ensures AiInv(cfg, Step(cfg, s, e).ai) <==> !Reuses(cfg, s, e)
  {
    if Accepted(cfg, s, e) && e.call.SubmitRequest? {
      AcceptedRequest(cfg, s, e);
      var request := RequestOf(s, e);
      if Reuses(cfg, s, e) {
        ReuseBreaksDensity(s.ai, request);
      } else {
        EnqueuedKeepsInv(cfg, s.ai, request);
      }
    } else if Accepted(cfg, s, e) && e.call.SubmitInference? {
      AcceptedInference(cfg, s, e);
      CompletedKeepsInv(cfg, s.ai, ResultOf(cfg, s, e));
    } else {
      OtherCallsLeaveQueues(cfg, s, e);
      FlagsAreFree(cfg, s.ai, Step(cfg, s, e).ai.online);
    }
  }

  /** No other step touches requests, results or queues. */
  lemma OtherCallsLeaveQueues(cfg: Config, s: Chain, e: Event)
    requires !(Accepted(cfg, s, e) && (e.call.SubmitRequest? || e.call.SubmitInference?))
    ensures Step(cfg, s, e).ai == s.ai.(online := Step(cfg, s, e).ai.online)
  {
  }

  lemma FlagsAreFree(cfg: Config, ai: Ai, online: map<Account, bool>)
    requires AiInv(cfg, ai)
    ensures AiInv(cfg, ai.(online := online))
  {
    var ai' := ai.(online := online);
    assert QueueLengths(ai') == QueueLengths(ai);
    forall w ensures QueueIndexes(cfg, ai', w) {
      assert QueueIndexes(cfg, ai, w);
      forall id ensures ai'.IsOpen(w, id) <==> ai.IsOpen(w, id) {
      }
    }
    forall i <- ai'.results ensures ResultAnswers(ai', i) {
      assert ResultAnswers(ai, i);
    }
    forall id, i ensures AnsweredBy(ai', id, i) <==> AnsweredBy(ai, id, i) {
    }
    forall id <- ai'.requests ensures Settled(ai', id) {
      assert Settled(ai, id);
    }
  }

  lemma ProvenanceStep(cfg: Config, s: Chain, e: Event)
    requires cfg.WellFormed() && Inv(cfg, s) && !Reuses(cfg, s, e)
    ensures Provenance(cfg, Step(cfg, s, e))
  {
    KiltStep(cfg, s, e);
    if Accepted(cfg, s, e) && e.call.SubmitRequest? {
      AcceptedRequest(cfg, s, e);
      RequestProvenance(cfg, s, RequestOf(s, e));
    } else if Accepted(cfg, s, e) && e.call.SubmitInference? {
      AcceptedInference(cfg, s, e);
      ResultProvenance(cfg, s, ResultOf(cfg, s, e));
    } else {
      OtherCallsLeaveQueues(cfg, s, e);
      ProvenanceCarries(cfg, s, Step(cfg, s, e));
    }
  }

  /** Provenance survives any change that keeps requests and results and lets identities and time grow. */
  lemma ProvenanceCarries(cfg: Config, s: Chain, s': Chain)
    requires Provenance(cfg, s)
    requires s'.ai.requests == s.ai.requests && s'.ai.results == s.ai.results
    requires s.block <= s'.block && IdentitiesKept(s.kilt, s'.kilt)
    ensures Provenance(cfg, s')
  {
    forall id <- s'.ai.requests ensures RequestOrigin(s', id) {
      assert RequestOrigin(s, id);
    }
    forall i <- s'.ai.results ensures s'.ai.results[i].requestId in s'.ai.requests && ResultOrigin(cfg, s', i) {
      assert ResultOrigin(cfg, s, i);
    }
  }

  lemma RequestProvenance(cfg: Config, s: Chain, request: Request)
    requires s.ai.nextRequestId !in s.ai.requests && Provenance(cfg, s)
    requires request.targetWorker in s.kilt.accountToDid && request.createdAt == s.block
    ensures Provenance(cfg, s.(ai := s.ai.Enqueued(request)))
  {
    var s' := s.(ai := s.ai.Enqueued(request));
    forall id <- s'.ai.requests ensures RequestOrigin(s', id) {
      if id != s.ai.nextRequestId {
        assert RequestOrigin(s, id);
      }
    }
    forall i <- s'.ai.results ensures s'.ai.results[i].requestId in s'.ai.requests && ResultOrigin(cfg, s', i) {
      assert ResultOrigin(cfg, s, i);
    }
  }

  lemma ResultProvenance(cfg: Config, s: Chain, result: InferenceResult)
    requires Provenance(cfg, s)
    requires s.ai.IsOpen(result.worker, result.requestId)
    requires result.worker in s.kilt.accountToDid
    requires result.workerDid == DidOf(cfg, result.worker) == s.kilt.accountToDid[result.worker]
    requires result.submittedAt == s.block
    ensures Provenance(cfg, s.(ai := s.ai.Completed(result)))
  {
    var s' := s.(ai := s.ai.Completed(result));
    assert RequestOrigin(s, result.requestId);
    forall id <- s'.ai.requests ensures RequestOrigin(s', id) {
      assert RequestOrigin(s, id);
    }
    forall i <- s'.ai.results ensures s'.ai.results[i].requestId in s'.ai.requests && ResultOrigin(cfg, s', i) {
      if i != s.ai.nextInferenceId {
        assert ResultOrigin(cfg, s, i);
      }
    }
  }

  /** The invariant is kept by every step but one kind, and that kind never keeps it. */
  lemma StepInv(cfg: Config, s: Chain, e: Event)
    requires cfg.WellFormed() && Inv(cfg, s)
    ensures Inv(cfg, Step(cfg, s, e)) <==> !Reuses(cfg, s, e)
  {
    AiStep(cfg, s, e);
    if !Reuses(cfg, s, e) {
      KiltStep(cfg, s, e);
      FaucetStep(cfg, s, e);
      LedgerStep(cfg, s, e);
      ProvenanceStep(cfg, s, e);
    }
  }

  // ----------------------------------------------------------- the machine

  /** The pallets' storage behind one dispatcher. */
  class Runtime {
    const cfg: Config
    const kilt: KiltPermissions
    const ai: AiPallet
    const faucet: FaucetPallet
    const bank: Bank
    var block: u32

    function State(): Chain
      reads this, kilt, ai, faucet, bank
    {
      Chain(block, kilt.State(), ai.State(), faucet.State(), bank.ledger)
    }

    constructor (cfg: Config, initial: Chain)
      ensures this.cfg == cfg && State() == initial
      ensures fresh(kilt) && fresh(ai) && fresh(faucet) && fresh(bank)
    {
      this.cfg := cfg;
      kilt := new KiltPermissions(initial.kilt);
      ai := new AiPallet(initial.ai);
      faucet := new FaucetPallet(initial.faucet);
      bank := new Bank(initial.ledger);
      block := initial.block;
    }

    method BeginBlock(number: u32)
      modifies this
      ensures old(Sound()) ==> Sound()
      ensures State() == Step(cfg, old(State()), NewBlock(number))
    {
      if Sound() {
        KiltStep(cfg, State(), NewBlock(number));
      }
      if number >= block {
        block := number;
      }
    }

    /** What the identity scans rely on; every step keeps it, even one that reuses an id. */
    ghost predicate Sound()
      reads this, kilt
    {
      cfg.WellFormed() && KiltInv(cfg, kilt.State(), block)
    }

    /** Runs a call on the live storage and puts the saved storage back if it fails. */
    method Dispatch(origin: Origin, call: Call) returns (r: Result<()>)
      requires Sound()
      modifies kilt, ai, faucet, bank
      ensures Sound()
      ensures State() == Step(cfg, old(State()), Extrinsic(origin, call))
      ensures r == Report(Apply(cfg, old(State()), origin, call))
      ensures r.Err? ==> State() == old(State())
      ensures old(Inv(cfg, State())) ==> (Inv(cfg, State()) <==> !Reuses(cfg, old(State()), Extrinsic(origin, call)))
    {
      var saved := State();
      KiltStep(cfg, saved, Extrinsic(origin, call));
      if Inv(cfg, saved) {
        StepInv(cfg, saved, Extrinsic(origin, call));
      }
      r := Execute(origin, call);
      if r.Err? {
        kilt.Restore(saved.kilt);
        ai.Restore(saved.ai);
        faucet.Restore(saved.faucet);
        bank.Set(saved.ledger);
      }
    }

    /** Routes a call to its pallet, with no roll-back. */
    method Execute(origin: Origin, call: Call) returns (r: Result<()>)
      requires Sound()
      modifies kilt, ai, faucet, bank
      ensures r == Report(Apply(cfg, old(State()), origin, call))
      ensures r.Ok? ==> Ok(State()) == Apply(cfg, old(State()), origin, call)
    {
      if call.Claim? {
        r := faucet.Claim(cfg, bank, block, origin, call.account);
      } else if call.FundFaucet? {
        r := faucet.FundFaucet(cfg, bank, origin, call.amount);
      } else if IsAiCall(call) {
        r := ExecuteAi(origin, call);
      } else {
        r := ExecuteKilt(origin, call);
      }
    }

    method ExecuteAi(origin: Origin, call: Call) returns (r: Result<()>)
      requires Sound()
      requires IsAiCall(call)
      modifies ai
      ensures r == Report(Apply(cfg, old(State()), origin, call))
      ensures r.Ok? ==> Ok(State()) == Apply(cfg, old(State()), origin, call)
    {
      match call
      case SubmitRequest(target, prompt, maxTokens) =>
        r := ai.SubmitRequest(cfg, kilt, block, origin, target, prompt, maxTokens);
      case UpdateAiWorkerStatus(flag) => r := ai.UpdateAiWorkerStatus(cfg, kilt, block, origin, flag);
      case SubmitInference(id, output) => r := ai.SubmitInference(cfg, kilt, block, origin, id, output);
    }

    method ExecuteKilt(origin: Origin, call: Call) returns (r: Result<()>)
      requires Sound()
      requires IsKiltCall(call)
      modifies kilt
      ensures r == Report(Apply(cfg, old(State()), origin, call))
      ensures r.Ok? ==> Ok(State()) == Apply(cfg, old(State()), origin, call)
    {
      match call
      case SetGovernanceDid(did) => r := kilt.SetGovernanceDid(origin, did);
      case CreateWorkerDid(name, description) => r := kilt.CreateWorkerDid(cfg, block, origin, name, description);
      case IssueWorkerCredential(did, models, validity) =>
        r := kilt.IssueWorkerCredential(block, origin, did, models, validity);
      case RevokeWorkerCredential(did) => r := kilt.RevokeWorkerCredential(origin, did);
      case SuspendWorker(did, duration) => r := kilt.SuspendWorker(cfg, block, origin, did, duration);
    }
  }

  predicate IsAiCall(call: Call) {
    call.SubmitRequest? || call.UpdateAiWorkerStatus? || call.SubmitInference?
  }

  predicate IsKiltCall(call: Call) {
    || call.SetGovernanceDid? || call.CreateWorkerDid? || call.IssueWorkerCredential?
    || call.RevokeWorkerCredential? || call.SuspendWorker?
  }
}
