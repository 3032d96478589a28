/**
 Validity over time. Everything the registry holds about one DID comes down to three terms:
 whether anyone owns it, when its credential expires, and when its last suspension ends. The
 terms evolve by themselves, one step at a time, and verification is membership in the interval
 they span.
 */
module CredentialTerms {
  import opened Primitives
  import opened Kilts
  import opened Ais
  import opened Runtimes
  import opened Runs

  /** `lastBlock` is absent without a credential; one that never expires lasts through the last block number. */
  datatype Terms = Terms(owned: bool, lastBlock: Option<u32>, firstBlock: nat)
  {
    predicate ValidAt(t: u32) {
      lastBlock.Some? && firstBlock <= t <= lastBlock.value
    }
  }

  /** The first block at which a worker in this state may act. */
  function FirstPermitted(status: CredentialStatus): nat {
    if status.Suspended? then status.until + 1 else 0
  }

  /** The first block at which the DID's owner, if any, may act. */
  ghost function FirstBlock(k: Kilt, did: Did): nat {
    if k.Registered(did) then
      var a :| k.Owns(a, did);
      FirstPermitted(k.workerDids[a].status)
    else 0
  }

  ghost function TermsOf(k: Kilt, did: Did): Terms {
    Terms(
      k.Registered(did),
      if did !in k.credentials then None
      else if k.credentials[did].expiresAt.Some? then Some(k.credentials[did].expiresAt.value)
      else Some(U32_MAX),
      FirstBlock(k, did))
  }

  lemma FirstBlockOfOwner(cfg: Config, k: Kilt, now: u32, did: Did, a: Account)
    requires cfg.WellFormed() && KiltInv(cfg, k, now) && k.Owns(a, did)
    ensures k.Registered(did)
    ensures FirstBlock(k, did) == FirstPermitted(k.workerDids[a].status)
  {
    forall b | k.Owns(b, did) ensures b == a {
      OwnerUnique(cfg, k, now, did, a, b);
    }
  }

  /** Verification is exactly membership of the block in the interval of the terms. */
  lemma TermsDecide(cfg: Config, k: Kilt, now: u32, did: Did, t: u32)
    requires cfg.WellFormed() && KiltInv(cfg, k, now)
    ensures k.Verify(did, t) ==
            if TermsOf(k, did).lastBlock.None? then Err(WorkerCredentialNotFound)
            else Ok(TermsOf(k, did).ValidAt(t))
  {
    if k.Registered(did) {
      var a :| k.Owns(a, did);
      assert IdentityOk(cfg, k, a, now);
      FirstBlockOfOwner(cfg, k, now, did, a);
      forall b | k.Owns(b, did) ensures b == a {
        OwnerUnique(cfg, k, now, did, a, b);
      }
    }
  }

  /** The end block of the suspension that `e` asks for at block `now`. */
  function SuspensionEnd(cfg: Config, now: u32, e: Event): u32
    requires e.Extrinsic? && e.call.SuspendWorker?
  {
    SatAdd(now, if e.call.duration.Some? then e.call.duration.value else cfg.workerSuspensionPeriod)
  }

  /** How one event moves the terms of one DID, told from the terms and the block number alone. */
  function NextTerms(cfg: Config, block: u32, did: Did, e: Event, terms: Terms): Terms {
    match e
    case Extrinsic(Signed(who), CreateWorkerDid(name, description)) =>
      if DidOf(cfg, who) == did && |name| <= MAX_NAME && |description| <= MAX_DESCRIPTION
      then terms.(owned := true)
      else terms
    case Extrinsic(Root, IssueWorkerCredential(d, models, validity)) =>
      if d == did && |models| <= MAX_MODELS
      then terms.(lastBlock := Some(if validity.Some? then SatAdd(block, validity.value) else U32_MAX))
      else terms
    case Extrinsic(Root, RevokeWorkerCredential(d)) =>
      if d == did then terms.(lastBlock := None) else terms
    case Extrinsic(Root, SuspendWorker(d, _)) =>
      if d == did && terms.owned then terms.(firstBlock := SuspensionEnd(cfg, block, e) + 1) else terms
    case _ => terms
  }

  /** Registries that agree on a DID's credential, owners and their status agree on its terms. */
  lemma SameTerms(cfg: Config, k: Kilt, now: u32, k': Kilt, later: u32, did: Did)
    requires cfg.WellFormed() && KiltInv(cfg, k, now) && KiltInv(cfg, k', later)
    requires forall a :: k.Owns(a, did) <==> k'.Owns(a, did)
    requires forall a :: k.Owns(a, did) && k'.Owns(a, did) ==> k.workerDids[a].status == k'.workerDids[a].status
    ensures FirstBlock(k, did) == FirstBlock(k', did) && k.Registered(did) == k'.Registered(did)
  {
    if k.Registered(did) {
      var a :| k.Owns(a, did);
      FirstBlockOfOwner(cfg, k, now, did, a);
      FirstBlockOfOwner(cfg, k', later, did, a);
    } else {
      assert forall a :: !k'.Owns(a, did);
    }
  }

  /** A newly registered account may act at once. */
  lemma NewOwner(cfg: Config, k: Kilt, k': Kilt, now: u32, who: Account)
    requires cfg.WellFormed() && KiltInv(cfg, k, now) && KiltInv(cfg, k', now)
    requires who !in k.workerDids && who in k'.workerDids && k'.workerDids[who].status == Active
    ensures !k.Registered(DidOf(cfg, who))
    ensures k'.Registered(DidOf(cfg, who)) && FirstBlock(k', DidOf(cfg, who)) == 0
  {
    var did := DidOf(cfg, who);
    assert IdentityOk(cfg, k', who, now);
    assert k'.Owns(who, did);
    FirstBlockOfOwner(cfg, k', now, did, who);
    forall a ensures !k.Owns(a, did) {
      if k.Owns(a, did) {
        assert IdentityOk(cfg, k, a, now);
        DidInjective(cfg, a, who);
      }
    }
  }

  /** Registering an account gives its DID an owner, and leaves every other DID's terms alone. */
  lemma TermsAfterRegistration(cfg: Config, k: Kilt, k': Kilt, now: u32, did: Did, who: Account, worker: WorkerDid)
    requires cfg.WellFormed() && KiltInv(cfg, k, now) && KiltInv(cfg, k', now)
    requires who !in k.workerDids && worker.status == Active && worker.did == DidOf(cfg, who)
    requires k'.workerDids == k.workerDids[who := worker] && k'.credentials == k.credentials
    ensures TermsOf(k', did) ==
            if DidOf(cfg, who) == did then TermsOf(k, did).(owned := true) else TermsOf(k, did)
  {
    if DidOf(cfg, who) == did {
      NewOwner(cfg, k, k', now, who);
    } else {
      forall a ensures k.Owns(a, did) <==> k'.Owns(a, did) {
      }
      SameTerms(cfg, k, now, k', now, did);
    }
  }

  lemma TermsAfterCreate(cfg: Config, k: Kilt, now: u32, did: Did, who: Account, name: Bytes, description: Bytes)
    requires cfg.WellFormed() && KiltInv(cfg, k, now)
    requires k.CreateWorkerDid(cfg, now, Signed(who), name, description).Ok?
    ensures TermsOf(k.CreateWorkerDid(cfg, now, Signed(who), name, description).value, did) ==
            if DidOf(cfg, who) == did then TermsOf(k, did).(owned := true) else TermsOf(k, did)
  {
    CreateKeepsInv(cfg, k, now, Signed(who), name, description);
    var k' := k.CreateWorkerDid(cfg, now, Signed(who), name, description).value;
    TermsAfterRegistration(cfg, k, k', now, did, who, k'.workerDids[who]);
  }

  lemma TermsAfterSuspend(cfg: Config, k: Kilt, now: u32, did: Did, d: Did, until: u32)
    requires cfg.WellFormed() && KiltInv(cfg, k, now)
    ensures TermsOf(k.Suspend(d, until), did) ==
            if d == did && k.Registered(did) then TermsOf(k, did).(firstBlock := until + 1) else TermsOf(k, did)
  {
    var k' := k.Suspend(d, until);
    SuspendKeepsInv(cfg, k, now, d, until);
    forall a ensures k'.Owns(a, did) <==> k.Owns(a, did) {
    }
    if d == did && k.Registered(did) {
      var a :| k.Owns(a, did);
      assert k'.Owns(a, did);
      FirstBlockOfOwner(cfg, k', now, did, a);
    } else {
      SameTerms(cfg, k, now, k', now, did);
    }
  }

  /** The terms of a DID move on their own: no other part of the chain, and no other DID, affects them. */
  lemma TermsStep(cfg: Config, s: Chain, e: Event, did: Did)
    requires cfg.WellFormed() && KiltInv(cfg, s.kilt, s.block)
    ensures TermsOf(Step(cfg, s, e).kilt, did) == NextTerms(cfg, s.block, did, e, TermsOf(s.kilt, did))
  {
    var k := s.kilt;
    if Accepted(cfg, s, e) && e.call.CreateWorkerDid? {
      TermsAfterCreate(cfg, k, s.block, did, e.origin.who, e.call.name, e.call.description);
    } else if e.Extrinsic? && e.call.CreateWorkerDid? {
      if e.origin.Signed? && e.origin.who in k.workerDids {
        assert IdentityOk(cfg, k, e.origin.who, s.block);
        assert k.Owns(e.origin.who, DidOf(cfg, e.origin.who));
      }
    } else if Accepted(cfg, s, e) && e.call.SuspendWorker? {
      TermsAfterSuspend(cfg, k, s.block, did, e.call.did, SuspensionEnd(cfg, s.block, e));
    } else {
      KiltStep(cfg, s, e);
      OtherCallsLeaveIdentities(cfg, s, e);
      SameTerms(cfg, k, s.block, Step(cfg, s, e).kilt, Step(cfg, s, e).block, did);
      CredentialSource(cfg, s, e, did);
      ExpiryMoves(cfg, s, e, Step(cfg, s, e).kilt, did);
      OtherCallsKeepFirstBlock(cfg, s, e, did);
    }
  }

  /** Only issuing and revoking move the expiry. */
  lemma ExpiryMoves(cfg: Config, s: Chain, e: Event, k': Kilt, did: Did)
    requires !ReplacesCredential(e, did) ==>
      && (did in k'.credentials <==> did in s.kilt.credentials)
      && (did in s.kilt.credentials ==> k'.credentials[did] == s.kilt.credentials[did])
    requires ReplacesCredential(e, did) ==>
      && (did in k'.credentials <==> e.call.IssueWorkerCredential?)
      && (did in k'.credentials ==> IssuesCredential(s, e, did, k'.credentials[did]))
    ensures TermsOf(k', did).lastBlock == NextTerms(cfg, s.block, did, e, TermsOf(s.kilt, did)).lastBlock
  {
  }

  lemma OtherCallsKeepFirstBlock(cfg: Config, s: Chain, e: Event, did: Did)
    requires !(e.Extrinsic? && e.call.CreateWorkerDid?)
    requires !(Accepted(cfg, s, e) && e.call.SuspendWorker?)
    ensures NextTerms(cfg, s.block, did, e, TermsOf(s.kilt, did)) ==
            TermsOf(s.kilt, did).(lastBlock := NextTerms(cfg, s.block, did, e, TermsOf(s.kilt, did)).lastBlock)
  {
  }

  lemma UntouchedTerms(cfg: Config, block: u32, did: Did, e: Event, terms: Terms)
    ensures !Suspends(e, did) ==> NextTerms(cfg, block, did, e, terms).firstBlock == terms.firstBlock
    ensures !Touches(e, did) ==> NextTerms(cfg, block, did, e, terms).(owned := terms.owned) == terms
  {
  }

  /** A sudo call that issues, revokes or suspends this DID. */
  predicate Touches(e: Event, did: Did) {
    && e.Extrinsic? && e.origin.Root?
    && match e.call
       case IssueWorkerCredential(d, _, _) => d == did
       case RevokeWorkerCredential(d) => d == did
       case SuspendWorker(d, _) => d == did
       case _ => false
  }

  lemma {:induction false} TermsHold(cfg: Config, s: Chain, events: seq<Event>, did: Did)
    requires cfg.WellFormed() && KiltInv(cfg, s.kilt, s.block)
    requires forall e <- events :: !Touches(e, did)
    ensures KiltInv(cfg, Run(cfg, s, events).kilt, Run(cfg, s, events).block)
    ensures TermsOf(Run(cfg, s, events).kilt, did) ==
            TermsOf(s.kilt, did).(owned := TermsOf(Run(cfg, s, events).kilt, did).owned)
  {
    IdentitiesLast(cfg, s, events);
    if events != [] {
      var last := Last(events);
      assert last in events;
      TermsHold(cfg, s, Init(events), did);
      var p := Run(cfg, s, Init(events));
      TermsStep(cfg, p, last, did);
      UntouchedTerms(cfg, p.block, did, last, TermsOf(p.kilt, did));
    }
  }

  /**
   Validity over time is one interval: as long as sudo does not touch the DID, it verifies at
   the end of a run exactly when the current block lies between the end of the suspension and
   the expiry that stood at its start. Creating the owner meanwhile changes nothing, and bounds
   that saturated never bite (expiry) or never lift (suspension).
   */
  lemma ValidityInterval(cfg: Config, s: Chain, events: seq<Event>, did: Did)
    requires cfg.WellFormed() && KiltInv(cfg, s.kilt, s.block)
    requires forall e <- events :: !Touches(e, did)
    requires did in s.kilt.credentials
    ensures var s' := Run(cfg, s, events);
            s'.kilt.Verify(did, s'.block) == Ok(
              && (forall a :: s.kilt.Owns(a, did) && s.kilt.workerDids[a].status.Suspended? ==>
                    s'.block > s.kilt.workerDids[a].status.until)
              && (s.kilt.credentials[did].expiresAt.Some? ==>
                    s'.block <= s.kilt.credentials[did].expiresAt.value))
  {
    var s' := Run(cfg, s, events);
    TermsHold(cfg, s, events, did);
    TermsDecide(cfg, s'.kilt, s'.block, did, s'.block);
    forall a | s.kilt.Owns(a, did)
      ensures FirstBlock(s.kilt, did) == FirstPermitted(s.kilt.workerDids[a].status)
    {
      FirstBlockOfOwner(cfg, s.kilt, s.block, did, a);
    }
  }

  /** Between two valid moments of an untouched run there is no invalid one: validity goes off, on, off at most. */
  lemma ValidityConvex(cfg: Config, s: Chain, events: seq<Event>, did: Did, i: nat, j: nat, k: nat)
    requires cfg.WellFormed() && KiltInv(cfg, s.kilt, s.block)
    requires forall e <- events :: !Touches(e, did)
    requires i <= j <= k <= |events|
    requires var si := Run(cfg, s, events[..i]); si.kilt.Verify(did, si.block) == Ok(true)
    requires var sk := Run(cfg, s, events[..k]); sk.kilt.Verify(did, sk.block) == Ok(true)
    ensures var sj := Run(cfg, s, events[..j]); sj.kilt.Verify(did, sj.block) == Ok(true)
  {
    var blocks := [i, j, k];
    forall m | 0 <= m < 3
      ensures var sm := Run(cfg, s, events[..blocks[m]]);
              sm.kilt.Verify(did, sm.block) == Ok(true) <==> TermsOf(s.kilt, did).ValidAt(sm.block)
    {
      var n := blocks[m];
      assert forall e <- events[..n] :: e in events;
      TermsHold(cfg, s, events[..n], did);
      var sm := Run(cfg, s, events[..n]);
      TermsDecide(cfg, sm.kilt, sm.block, did, sm.block);
    }
    assert blocks[0] == i && blocks[1] == j && blocks[2] == k;
    assert events[..k][..j] == events[..j] && events[..j][..i] == events[..i];
    BlocksAdvance(cfg, s, events[..k], j);
    BlocksAdvance(cfg, s, events[..j], i);
  }

  /** In a reachable state the checks of the AI pallet read off the queue and the terms. */
  lemma WorkerFacts(cfg: Config, s: Chain, w: Account)
    requires cfg.WellFormed() && Reachable(cfg, s)
    ensures w in s.kilt.accountToDid <==> w in s.kilt.workerDids
    ensures w in s.kilt.accountToDid ==> s.kilt.accountToDid[w] == DidOf(cfg, w)
    ensures s.kilt.Verify(DidOf(cfg, w), s.block) == Ok(true) <==> TermsOf(s.kilt, DidOf(cfg, w)).ValidAt(s.block)
    ensures |s.ai.Open(w)| == |s.ai.Queue(w)|
    ensures forall id :: id in s.ai.Queue(w) <==> s.ai.IsOpen(w, id)
  {
    ReachableInv(cfg, s);
    OpenCountsQueue(cfg, s.ai, w);
    TermsDecide(cfg, s.kilt, s.block, DidOf(cfg, w), s.block);
    assert w in s.kilt.workerDids ==> IdentityOk(cfg, s.kilt, w, s.block);
  }

  /**
   A request is accepted exactly when it is signed, its target is registered, the target's terms
   span the current block and the request map holds fewer open requests for it than its bound.
   */
  lemma RequestAcceptedIff(cfg: Config, s: Chain, origin: Origin, target: Account, prompt: Bytes, maxTokens: u32)
    requires cfg.WellFormed() && Reachable(cfg, s)
    ensures Accepted(cfg, s, Extrinsic(origin, SubmitRequest(target, prompt, maxTokens))) <==>
            && origin.Signed?
            && target in s.kilt.workerDids
            && TermsOf(s.kilt, DidOf(cfg, target)).ValidAt(s.block)
            && |s.ai.Open(target)| < cfg.maxQueueSize
  {
    WorkerFacts(cfg, s, target);
  }

  /**
   A result is accepted exactly when it is signed by a registered account whose terms span the
   current block, for an id waiting in that account's own queue.
   */
  lemma InferenceAcceptedIff(cfg: Config, s: Chain, origin: Origin, id: u32, output: Bytes)
    requires cfg.WellFormed() && Reachable(cfg, s)
    ensures Accepted(cfg, s, Extrinsic(origin, SubmitInference(id, output))) <==>
            && origin.Signed?
            && origin.who in s.kilt.workerDids
            && TermsOf(s.kilt, DidOf(cfg, origin.who)).ValidAt(s.block)
            && id in s.ai.Queue(origin.who)
  {
    if origin.Signed? {
      WorkerFacts(cfg, s, origin.who);
    }
  }

  // -------------------------------------------------------- suspension freezes

  /** A sudo call that suspends this DID. */
  predicate Suspends(e: Event, did: Did) {
    e.Extrinsic? && e.origin.Root? && e.call.SuspendWorker? && e.call.did == did
  }

  /** Worker `w` has the same queue and the same online flag in both storages. */
  predicate DeskUntouched(ai: Ai, ai': Ai, w: Account) {
    && ai'.Queue(w) == ai.Queue(w)
    && (w in ai'.online <==> w in ai.online)
    && (w in ai.online ==> ai'.online[w] == ai.online[w])
  }

  /** Nothing about worker `w` differs: queue, online flag, and every request made to it, completed or not. */
  ghost predicate WorkerUntouched(ai: Ai, ai': Ai, w: Account) {
    && DeskUntouched(ai, ai', w)
    && (forall id :: id in ai'.requests && ai'.requests[id].targetWorker == w <==>
                     id in ai.requests && ai.requests[id].targetWorker == w)
    && (forall id :: id in ai.requests && ai.requests[id].targetWorker == w ==> ai'.requests[id] == ai.requests[id])
  }

  /**
   Along the run worker `w` is frozen: no request is accepted for it, it completes none, and its
   queue and online flag stay; and unless a request id is reused, so does every request made to it.
   */
  ghost predicate Frozen(cfg: Config, s: Chain, events: seq<Event>, w: Account) {
    && RequestsFor(cfg, s, events, w) == [] && CompletionsBy(cfg, s, events, w) == []
    && DeskUntouched(s.ai, Run(cfg, s, events).ai, w)
    && (ReuseFree(cfg, s, events) ==> WorkerUntouched(s.ai, Run(cfg, s, events).ai, w))
  }

  /** Whatever suspensions of the DID sudo makes during the run, none of them ends before `block`. */
  ghost predicate SuspendsThrough(cfg: Config, s: Chain, events: seq<Event>, did: Did, block: u32) {
    forall k :: 0 <= k < |events| && Suspends(events[k], did) ==>
      SuspensionEnd(cfg, Run(cfg, s, events[..k]).block, events[k]) >= block
  }

  lemma SuspendsThroughPrefix(cfg: Config, s: Chain, events: seq<Event>, n: nat, did: Did, block: u32)
    requires n <= |events| && SuspendsThrough(cfg, s, events, did, block)
    ensures SuspendsThrough(cfg, s, events[..n], did, block)
  {
    forall k | 0 <= k < n && Suspends(events[..n][k], did)
      ensures SuspensionEnd(cfg, Run(cfg, s, events[..n][..k]).block, events[..n][k]) >= block
    {
      assert events[..n][..k] == events[..k] && Suspends(events[k], did);
    }
  }

  /** No step brings the end of a suspension before `block`, other than a suspension that ends before it. */
  lemma SuspensionStep(cfg: Config, p: Chain, e: Event, did: Did, block: u32)
    requires cfg.WellFormed() && KiltInv(cfg, p.kilt, p.block)
    requires TermsOf(p.kilt, did).firstBlock > block
    requires Suspends(e, did) ==> SuspensionEnd(cfg, p.block, e) >= block
    ensures TermsOf(Step(cfg, p, e).kilt, did).firstBlock > block
  {
    TermsStep(cfg, p, e, did);
    UntouchedTerms(cfg, p.block, did, e, TermsOf(p.kilt, did));
  }

  lemma {:induction false} SuspensionStands(cfg: Config, s: Chain, events: seq<Event>, did: Did, block: u32)
    requires cfg.WellFormed() && KiltInv(cfg, s.kilt, s.block)
    requires SuspendsThrough(cfg, s, events, did, block)
    requires TermsOf(s.kilt, did).firstBlock > block
    ensures KiltInv(cfg, Run(cfg, s, events).kilt, Run(cfg, s, events).block)
    ensures TermsOf(Run(cfg, s, events).kilt, did).firstBlock > block
  {
    IdentitiesLast(cfg, s, events);
    if events != [] {
      var n, last := |events| - 1, Last(events);
      assert events[..n] == Init(events) && events[n] == last;
      SuspendsThroughPrefix(cfg, s, events, n, did, block);
      SuspensionStands(cfg, s, Init(events), did, block);
      SuspensionStep(cfg, Run(cfg, s, Init(events)), last, did, block);
    }
  }

  lemma EnqueuedForOther(ai: Ai, request: Request, w: Account)
    requires request.targetWorker != w
    ensures DeskUntouched(ai, ai.Enqueued(request), w)
    ensures ai.nextRequestId !in ai.requests ==> WorkerUntouched(ai, ai.Enqueued(request), w)
  {
  }

  lemma CompletedForOther(ai: Ai, result: InferenceResult, w: Account)
    requires ai.IsOpen(result.worker, result.requestId) && result.worker != w
    ensures WorkerUntouched(ai, ai.Completed(result), w)
  {
  }

  /** While a worker's DID does not verify, no step touches anything of the worker's. */
  lemma InvalidWorkerStep(cfg: Config, s: Chain, e: Event, w: Account)
    requires cfg.WellFormed() && KiltInv(cfg, s.kilt, s.block)
    requires s.kilt.Verify(DidOf(cfg, w), s.block) != Ok(true)
    ensures Accepted(cfg, s, e) && e.call.SubmitRequest? ==> e.call.target != w
    ensures Accepted(cfg, s, e) && e.call.SubmitInference? ==> e.origin != Signed(w)
    ensures DeskUntouched(s.ai, Step(cfg, s, e).ai, w)
    ensures !Reuses(cfg, s, e) ==> WorkerUntouched(s.ai, Step(cfg, s, e).ai, w)
  {
    if Accepted(cfg, s, e) && e.call.SubmitRequest? {
      AcceptedRequest(cfg, s, e);
      assert IdentityOk(cfg, s.kilt, e.call.target, s.block);
      EnqueuedForOther(s.ai, RequestOf(s, e), w);
    } else if Accepted(cfg, s, e) && e.call.SubmitInference? {
      AcceptedInference(cfg, s, e);
      CompletedForOther(s.ai, ResultOf(cfg, s, e), w);
    } else {
      OtherCallsLeaveQueues(cfg, s, e);
      InvalidWorkerFlag(cfg, s, e, w);
    }
  }

  lemma FlagOnlyByStatusCall(cfg: Config, s: Chain, e: Event)
    requires !(Accepted(cfg, s, e) && e.call.UpdateAiWorkerStatus?)
    ensures Step(cfg, s, e).ai.online == s.ai.online
  {
  }

  /** An online flag moves only by its own worker, whose DID verifies. */
  lemma AcceptedStatus(cfg: Config, s: Chain, e: Event)
    requires cfg.WellFormed() && KiltInv(cfg, s.kilt, s.block)
    requires Accepted(cfg, s, e) && e.call.UpdateAiWorkerStatus?
    ensures e.origin.Signed?
    ensures s.kilt.Verify(DidOf(cfg, e.origin.who), s.block) == Ok(true)
    ensures Step(cfg, s, e).ai.online == s.ai.online[e.origin.who := e.call.flag]
  {
    assert IdentityOk(cfg, s.kilt, e.origin.who, s.block);
  }

  lemma InvalidWorkerFlag(cfg: Config, s: Chain, e: Event, w: Account)
    requires cfg.WellFormed() && KiltInv(cfg, s.kilt, s.block)
    requires s.kilt.Verify(DidOf(cfg, w), s.block) != Ok(true)
    ensures w in Step(cfg, s, e).ai.online <==> w in s.ai.online
    ensures w in s.ai.online ==> Step(cfg, s, e).ai.online[w] == s.ai.online[w]
  {
    if Accepted(cfg, s, e) && e.call.UpdateAiWorkerStatus? {
      AcceptedStatus(cfg, s, e);
      assert e.origin.who != w;
    } else {
      FlagOnlyByStatusCall(cfg, s, e);
    }
  }

  /** As long as its DID does not verify, a worker is frozen across pallets, whatever has become of the request ids. */
  lemma {:induction false} FrozenWhileInvalid(cfg: Config, s: Chain, events: seq<Event>, w: Account)
    requires cfg.WellFormed() && KiltInv(cfg, s.kilt, s.block)
    requires forall k :: 0 <= k < |events| ==>
      Run(cfg, s, events[..k]).kilt.Verify(DidOf(cfg, w), Run(cfg, s, events[..k]).block) != Ok(true)
    ensures Frozen(cfg, s, events, w)
  {
    if events != [] {
      var n := |events| - 1;
      assert events[..n] == Init(events);
      forall k | 0 <= k < n ensures Init(events)[..k] == events[..k] {
      }
      FrozenWhileInvalid(cfg, s, Init(events), w);
      IdentitiesLast(cfg, s, Init(events));
      InvalidWorkerStep(cfg, Run(cfg, s, Init(events)), Last(events), w);
    }
  }

  /**
   Suspension freezes a worker across pallets: up to its end block, and whatever else happens,
   short of another suspension that ends before the block reached, no run accepts a request for
   the worker, completes one of its requests, changes its queue or flips its online flag.
   */
  lemma SuspensionFreezes(cfg: Config, s: Chain, events: seq<Event>, w: Account)
    requires cfg.WellFormed() && KiltInv(cfg, s.kilt, s.block)
    requires w in s.kilt.workerDids && s.kilt.workerDids[w].status.Suspended?
    requires Run(cfg, s, events).block <= s.kilt.workerDids[w].status.until
    requires SuspendsThrough(cfg, s, events, DidOf(cfg, w), Run(cfg, s, events).block)
    ensures Frozen(cfg, s, events, w)
    ensures Run(cfg, s, events).kilt.Verify(DidOf(cfg, w), Run(cfg, s, events).block) != Ok(true)
  {
    var did, block := DidOf(cfg, w), Run(cfg, s, events).block;
    assert IdentityOk(cfg, s.kilt, w, s.block) && s.kilt.Owns(w, did);
    FirstBlockOfOwner(cfg, s.kilt, s.block, did, w);
    forall k | 0 <= k <= |events|
      ensures Run(cfg, s, events[..k]).kilt.Verify(did, Run(cfg, s, events[..k]).block) != Ok(true)
    {
      var p := Run(cfg, s, events[..k]);
      SuspendsThroughPrefix(cfg, s, events, k, did, block);
      SuspensionStands(cfg, s, events[..k], did, block);
      BlocksAdvance(cfg, s, events, k);
      TermsDecide(cfg, p.kilt, p.block, did, p.block);
    }
    assert events[..|events|] == events;
    FrozenWhileInvalid(cfg, s, events, w);
  }

  /**
   Why the new end block matters: a shorter suspension replaces a longer one. The worker then acts
   again right after the shorter one, at a block where the longer one would still have held it.
   */
  lemma ResuspensionLifts(cfg: Config, s: Chain, w: Account, duration: u32)
    requires cfg.WellFormed() && KiltInv(cfg, s.kilt, s.block)
    requires w in s.kilt.workerDids && s.kilt.workerDids[w].status.Suspended?
    requires s.block + duration < s.kilt.workerDids[w].status.until
    requires DidOf(cfg, w) in s.kilt.credentials
    requires !s.kilt.credentials[DidOf(cfg, w)].Expired(s.block + duration + 1)
    ensures var next := NewBlock(s.block + duration + 1);
            var held := Step(cfg, s, next);
            var lifted := Step(cfg, Step(cfg, s, Extrinsic(Root, SuspendWorker(DidOf(cfg, w), Some(duration)))), next);
            && held.kilt.Verify(DidOf(cfg, w), held.block) == Ok(false)
            && lifted.kilt.Verify(DidOf(cfg, w), lifted.block) == Ok(true)
            && lifted.block == held.block == s.block + duration + 1
  {
    assert IdentityOk(cfg, s.kilt, w, s.block);
  }

  // ------------------------------------------------------- revocation, re-issue

  /** A sudo call that gives this DID a credential. */
  predicate Issues(e: Event, did: Did) {
    ReplacesCredential(e, did) && e.call.IssueWorkerCredential?
  }

  /** Which credential stands at the end of a run is up to the last call that replaced it. */
  lemma {:induction false} LastReplacementStands(cfg: Config, s: Chain, events: seq<Event>, k: nat, did: Did)
    requires k < |events| && ReplacesCredential(events[k], did)
    requires forall m :: k < m < |events| ==> !ReplacesCredential(events[m], did)
    ensures did in Run(cfg, s, events).kilt.credentials <==> Issues(events[k], did)
  {
    var n := |events| - 1;
    CredentialSource(cfg, Run(cfg, s, Init(events)), Last(events), did);
    if k < n {
      LastReplacementStands(cfg, s, Init(events), k, did);
    }
  }

  lemma {:induction false} AbsentUntilIssued(cfg: Config, s: Chain, events: seq<Event>, did: Did)
    requires did !in s.kilt.credentials
    requires forall e <- events :: !Issues(e, did)
    ensures did !in Run(cfg, s, events).kilt.credentials
  {
    if events != [] {
      assert Last(events) in events;
      AbsentUntilIssued(cfg, s, Init(events), did);
      CredentialSource(cfg, Run(cfg, s, Init(events)), Last(events), did);
    }
  }

  /** Without a credential, as after a revocation, a worker is unknown and frozen until sudo issues it one. */
  lemma RevocationFreezes(cfg: Config, s: Chain, events: seq<Event>, w: Account, t: u32)
    requires cfg.WellFormed() && KiltInv(cfg, s.kilt, s.block)
    requires DidOf(cfg, w) !in s.kilt.credentials
    requires forall e <- events :: !Issues(e, DidOf(cfg, w))
    ensures Frozen(cfg, s, events, w)
    ensures Run(cfg, s, events).kilt.Verify(DidOf(cfg, w), t) == Err(WorkerCredentialNotFound)
  {
    forall k | 0 <= k <= |events|
      ensures DidOf(cfg, w) !in Run(cfg, s, events[..k]).kilt.credentials
    {
      AbsentUntilIssued(cfg, s, events[..k], DidOf(cfg, w));
    }
    assert events[..|events|] == events;
    FrozenWhileInvalid(cfg, s, events, w);
  }
}
