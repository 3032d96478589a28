/**
 What every call answers and leaves behind, told from the storage alone: the maps, the counters,
 the queues, the balances and the block number. Each answer is given exactly under its condition.
 */
module Answers {
  import opened Primitives
  import opened Sequences
  import opened Kilts
  import opened Ais
  import opened Balances
  import opened Faucets
  import opened Runtimes

  /** What the caller of a dispatched call is told. */
  ghost function Answer(cfg: Config, s: Chain, origin: Origin, call: Call): Result<()> {
    Report(Apply(cfg, s, origin, call))
  }

  ghost function Afterwards(cfg: Config, s: Chain, origin: Origin, call: Call): Chain {
    Step(cfg, s, Extrinsic(origin, call))
  }

  // ------------------------------------------------------------ the identity checks

  /** How an account stands with the identity registry at the current block. */
  datatype Standing = Unregistered | Uncredentialed | OutOfTerm | InTerm

  /** The account's credential has not expired and its suspension, if any, has ended. */
  predicate WithinTerm(status: CredentialStatus, expiresAt: Option<u32>, now: u32) {
    && (expiresAt.Some? ==> now <= expiresAt.value)
    && (status.Suspended? ==> status.until < now)
  }

  function StandingOf(cfg: Config, s: Chain, a: Account): Standing
    requires |cfg.hash(a)| == 32
  {
    var did := DidIdentifier(cfg.hash(a));
    if a !in s.kilt.workerDids then Unregistered
    else if did !in s.kilt.credentials then Uncredentialed
    else if WithinTerm(s.kilt.workerDids[a].status, s.kilt.credentials[did].expiresAt, s.block) then InTerm
    else OutOfTerm
  }

  /** The lookup and the verification read off the standing. */
  lemma StandingDecides(cfg: Config, s: Chain, a: Account)
    requires cfg.WellFormed() && KiltInv(cfg, s.kilt, s.block)
    ensures var did := DidIdentifier(cfg.hash(a));
            match StandingOf(cfg, s, a)
            case Unregistered => s.kilt.GetWorkerDid(a) == Err(AccountHasNoDID)
            case Uncredentialed =>
              s.kilt.GetWorkerDid(a) == Ok(did) && s.kilt.Verify(did, s.block) == Err(WorkerCredentialNotFound)
            case OutOfTerm => s.kilt.GetWorkerDid(a) == Ok(did) && s.kilt.Verify(did, s.block) == Ok(false)
            case InTerm => s.kilt.GetWorkerDid(a) == Ok(did) && s.kilt.Verify(did, s.block) == Ok(true)
  {
    DidIsHash(cfg, a);
    if a in s.kilt.workerDids {
      VerifyReadsOwner(cfg, s.kilt, s.block, a, s.block);
      assert IdentityOk(cfg, s.kilt, a, s.block);
    }
  }

  /** The check worker calls start with answers by the standing, one error each. */
  lemma AuthorizedByStanding(cfg: Config, s: Chain, a: Account)
    requires cfg.WellFormed() && KiltInv(cfg, s.kilt, s.block)
    ensures s.kilt.Authorize(a, s.block) ==
            match StandingOf(cfg, s, a)
            case Unregistered => Err(AccountHasNoDID)
            case Uncredentialed => Err(WorkerCredentialNotFound)
            case OutOfTerm => Err(InvalidWorkerCredential)
            case InTerm => Ok(DidIdentifier(cfg.hash(a)))
  {
    StandingDecides(cfg, s, a);
  }

  /** The answer is exactly one of the four a worker's call gets before it is looked at any further, or none of them. */
  ghost predicate ChecksIdentity(cfg: Config, s: Chain, origin: Origin, answer: Result<()>)
    requires cfg.WellFormed()
  {
    && (answer == Err(BadOrigin) <==> !origin.Signed?)
    && (answer == Err(AccountHasNoDID) <==> origin.Signed? && StandingOf(cfg, s, origin.who) == Unregistered)
    && (answer == Err(WorkerCredentialNotFound) <==>
          origin.Signed? && StandingOf(cfg, s, origin.who) == Uncredentialed)
    && (answer == Err(InvalidWorkerCredential) <==> origin.Signed? && StandingOf(cfg, s, origin.who) == OutOfTerm)
  }

  // ------------------------------------------------------------------ pallet-qx-ai

  /** The status call is accepted from exactly the workers in their term, for either flag, and stores that flag. */
  lemma StatusAnswers(cfg: Config, s: Chain, origin: Origin, flag: bool)
    requires cfg.WellFormed() && KiltInv(cfg, s.kilt, s.block)
    ensures var r := Answer(cfg, s, origin, UpdateAiWorkerStatus(flag));
            && ChecksIdentity(cfg, s, origin, r)
            && (r.Ok? <==> origin.Signed? && StandingOf(cfg, s, origin.who) == InTerm)
    ensures Answer(cfg, s, origin, UpdateAiWorkerStatus(flag)).Ok? ==>
            Afterwards(cfg, s, origin, UpdateAiWorkerStatus(flag)) ==
            s.(ai := s.ai.(online := s.ai.online[origin.who := flag]))
  {
    if origin.Signed? {
      AuthorizedByStanding(cfg, s, origin.who);
    }
  }

  /** A request is refused for its target's missing identity, its target's term or a full count of open requests. */
  lemma RequestAnswers(cfg: Config, s: Chain, origin: Origin, target: Account, prompt: Bytes, maxTokens: u32)
    requires cfg.WellFormed() && Inv(cfg, s)
    ensures var r := Answer(cfg, s, origin, SubmitRequest(target, prompt, maxTokens));
            var standing := StandingOf(cfg, s, target);
            && (r == Err(BadOrigin) <==> !origin.Signed?)
            && (r == Err(WorkerDIDNotFound) <==> origin.Signed? && standing == Unregistered)
            && (r == Err(InvalidWorkerCredential) <==> origin.Signed? && standing in {Uncredentialed, OutOfTerm})
            && (r == Err(AIWorkerQueueFull) <==>
                  origin.Signed? && standing == InTerm && |s.ai.Open(target)| == cfg.maxQueueSize)
            && (r.Ok? <==> origin.Signed? && standing == InTerm && |s.ai.Open(target)| < cfg.maxQueueSize)
  {
    StandingDecides(cfg, s, target);
    assert QueueIndexes(cfg, s.ai, target);
    OpenCountsQueue(cfg, s.ai, target);
  }

  /** `next` is the 32-bit number after `x`; zero comes after the last. */
  predicate Succeeds(next: u32, x: u32) {
    next == x + 1 || (x == U32_MAX && next == 0)
  }

  /** An accepted request takes the next id, is stored as asked for and goes to the end of its worker's queue. */
  lemma RequestLeaves(cfg: Config, s: Chain, origin: Origin, target: Account, prompt: Bytes, maxTokens: u32)
    requires Answer(cfg, s, origin, SubmitRequest(target, prompt, maxTokens)).Ok?
    ensures var t := Afterwards(cfg, s, origin, SubmitRequest(target, prompt, maxTokens));
            var id := s.ai.nextRequestId;
            && origin.Signed? && t == s.(ai := t.ai)
            && Succeeds(t.ai.nextRequestId, id)
            && t.ai.requests ==
                 s.ai.requests[id := Request(origin.who, target, prompt, maxTokens, RequestStatus.Queued, s.block)]
            && t.ai.requestWorker == s.ai.requestWorker[id := target]
            && t.ai.Queue(target) == s.ai.Queue(target) + [id]
            && (forall w :: w != target ==> t.ai.Queue(w) == s.ai.Queue(w))
            && t.ai.nextInferenceId == s.ai.nextInferenceId
            && t.ai.results == s.ai.results && t.ai.online == s.ai.online
  {
    AcceptedRequest(cfg, s, Extrinsic(origin, SubmitRequest(target, prompt, maxTokens)));
  }

  /**
   Past the identity checks a result is refused for an id not handed out, for a request made to
   another worker, and for one of the caller's that waits in no queue any more, each by its own error.
   */
  ghost predicate ChecksRequest(ai: Ai, who: Account, id: u32, answer: Result<()>) {
    && (answer == Err(RequestNotFound) <==> id >= ai.Made())
    && (answer == Err(RequestNotAssigned) <==> id in ai.requestWorker && ai.requestWorker[id] != who)
    && (answer == Err(RequestAlreadyAssigned) <==>
          id in ai.requestWorker && ai.requestWorker[id] == who && forall w :: id !in ai.Queue(w))
    && (answer.Ok? <==> id in ai.Queue(who))
  }

  lemma InferenceAnswers(cfg: Config, s: Chain, origin: Origin, id: u32, output: Bytes)
    requires cfg.WellFormed() && Inv(cfg, s)
    ensures var r := Answer(cfg, s, origin, SubmitInference(id, output));
            && ChecksIdentity(cfg, s, origin, r)
            && if origin.Signed? && StandingOf(cfg, s, origin.who) == InTerm
               then ChecksRequest(s.ai, origin.who, id, r)
               else r.Err? && r.error in {BadOrigin, AccountHasNoDID, WorkerCredentialNotFound, InvalidWorkerCredential}
  {
    if origin.Signed? {
      if StandingOf(cfg, s, origin.who) == InTerm {
        WorkerInTermAnswered(cfg, s, origin.who, id, output);
      } else {
        AuthorizedByStanding(cfg, s, origin.who);
      }
    }
  }

  lemma WorkerInTermAnswered(cfg: Config, s: Chain, who: Account, id: u32, output: Bytes)
    requires cfg.WellFormed() && Inv(cfg, s) && StandingOf(cfg, s, who) == InTerm
    ensures ChecksRequest(s.ai, who, id, Answer(cfg, s, Signed(who), SubmitInference(id, output)))
    ensures ChecksIdentity(cfg, s, Signed(who), Answer(cfg, s, Signed(who), SubmitInference(id, output)))
  {
    RequestDecides(cfg, s, who, id, output);
    WaitsOnlyWithItsWorker(cfg, s.ai, who, id);
  }

  lemma RequestDecides(cfg: Config, s: Chain, who: Account, id: u32, output: Bytes)
    requires cfg.WellFormed() && KiltInv(cfg, s.kilt, s.block) && StandingOf(cfg, s, who) == InTerm
    ensures Answer(cfg, s, Signed(who), SubmitInference(id, output)) ==
            if id !in s.ai.requests then Err(RequestNotFound)
            else if s.ai.requests[id].targetWorker != who then Err(RequestNotAssigned)
            else if !s.ai.IsOpen(who, id) then Err(RequestAlreadyAssigned)
            else Ok(())
  {
    AuthorizedByStanding(cfg, s, who);
  }

  lemma WaitsOnlyWithItsWorker(cfg: Config, ai: Ai, w: Account, id: u32)
    requires AiInv(cfg, ai)
    ensures id in ai.requestWorker <==> id < ai.Made()
    ensures id in ai.requestWorker <==> id in ai.requests
    ensures id in ai.requestWorker ==> ai.requestWorker[id] == ai.requests[id].targetWorker
    ensures id in ai.Queue(w) <==> ai.IsOpen(w, id)
    ensures id in ai.requestWorker && ai.requestWorker[id] == w ==>
            ((forall v :: id !in ai.Queue(v)) <==> ai.requests[id].status != RequestStatus.Queued)
  {
    forall v ensures id in ai.Queue(v) <==> ai.IsOpen(v, id) {
      assert QueueIndexes(cfg, ai, v);
    }
  }

  /** `result` takes the next inference id, its request is completed and leaves its queue; nothing else differs. */
  ghost predicate StoresCompletion(ai: Ai, ai': Ai, result: InferenceResult) {
    && result.requestId in ai.requests
    && Succeeds(ai'.nextInferenceId, ai.nextInferenceId)
    && ai'.results == ai.results[ai.nextInferenceId := result]
    && ai'.requests ==
         ai.requests[result.requestId := ai.requests[result.requestId].(status := RequestStatus.Completed)]
    && LeavesQueues(ai, ai', result.requestId)
    && ai'.nextRequestId == ai.nextRequestId
    && ai'.requestWorker == ai.requestWorker && ai'.online == ai.online
  }

  /** `id` waits nowhere any more; everything else waits where it did, in order. */
  ghost predicate LeavesQueues(ai: Ai, ai': Ai, id: u32) {
    forall w ::
      && Increasing(ai'.Queue(w))
      && forall x :: x in ai'.Queue(w) <==> x in ai.Queue(w) && x != id
  }

  /** An accepted result is stored under the caller's hash at this block, and nothing but its request is affected. */
  lemma InferenceLeaves(cfg: Config, s: Chain, origin: Origin, id: u32, output: Bytes)
    requires cfg.WellFormed() && Inv(cfg, s)
    requires Answer(cfg, s, origin, SubmitInference(id, output)).Ok?
    ensures origin.Signed?
    ensures var t := Afterwards(cfg, s, origin, SubmitInference(id, output));
            && t == s.(ai := t.ai)
            && StoresCompletion(s.ai, t.ai,
                 InferenceResult(id, origin.who, DidIdentifier(cfg.hash(origin.who)), output,
                                 InferenceStatus.Completed, s.block))
  {
    var e := Extrinsic(origin, SubmitInference(id, output));
    AcceptedInference(cfg, s, e);
    DidIsHash(cfg, origin.who);
    CompletionStores(cfg, s.ai, ResultOf(cfg, s, e));
  }

  lemma CompletionStores(cfg: Config, ai: Ai, result: InferenceResult)
    requires AiInv(cfg, ai) && ai.IsOpen(result.worker, result.requestId)
    ensures StoresCompletion(ai, ai.Completed(result), result)
  {
    CompletionLeavesQueues(cfg, ai, result);
    StoresWhenItLeaves(ai, result);
  }

  lemma StoresWhenItLeaves(ai: Ai, result: InferenceResult)
    requires ai.IsOpen(result.worker, result.requestId)
    requires LeavesQueues(ai, ai.Completed(result), result.requestId)
    ensures StoresCompletion(ai, ai.Completed(result), result)
  {
  }

  lemma CompletionLeavesQueues(cfg: Config, ai: Ai, result: InferenceResult)
    requires AiInv(cfg, ai) && ai.IsOpen(result.worker, result.requestId)
    ensures LeavesQueues(ai, ai.Completed(result), result.requestId)
  {
    var ai', id := ai.Completed(result), result.requestId;
    forall w ensures Increasing(ai'.Queue(w)) && forall x :: x in ai'.Queue(w) <==> x in ai.Queue(w) && x != id {
      CompletedQueues(cfg, ai, result, w);
      assert QueueIndexes(cfg, ai, w) && QueueIndexes(cfg, ai', w);
      forall x ensures x in ai'.Queue(w) <==> x in ai.Queue(w) && x != id {
        assert x in ai'.Queue(w) <==> ai'.IsOpen(w, x);
        assert x in ai.Queue(w) <==> ai.IsOpen(w, x);
      }
    }
  }

  // ---------------------------------------------------- pallet-qx-kilt-permissions

  /** A signer registers once, with at most 128 bytes of name and 512 of description, under its hash. */
  lemma RegistrationAnswers(cfg: Config, s: Chain, origin: Origin, name: Bytes, description: Bytes)
    requires cfg.WellFormed()
    ensures var r := Answer(cfg, s, origin, CreateWorkerDid(name, description));
            var known := origin.Signed? && origin.who in s.kilt.workerDids;
            && (r == Err(BadOrigin) <==> !origin.Signed?)
            && (r == Err(WorkerDIDAlreadyExists) <==> known)
            && (r == Err(InvalidBoundedVec) <==>
                  origin.Signed? && !known && (|name| > 128 || |description| > 512))
            && (r.Ok? <==> origin.Signed? && !known && |name| <= 128 && |description| <= 512)
    ensures Answer(cfg, s, origin, CreateWorkerDid(name, description)).Ok? ==>
            var t := Afterwards(cfg, s, origin, CreateWorkerDid(name, description));
            var did := DidIdentifier(cfg.hash(origin.who));
            && t == s.(kilt := t.kilt)
            && t.kilt.workerDids ==
                 s.kilt.workerDids[origin.who :=
                   WorkerDid(did, origin.who, WorkerMetadata(name, description, s.block), Active)]
            && t.kilt.accountToDid == s.kilt.accountToDid[origin.who := did]
            && t.kilt.credentials == s.kilt.credentials && t.kilt.governanceDid == s.kilt.governanceDid
  {
    if origin.Signed? {
      DidIsHash(cfg, origin.who);
    }
  }

  /** Sudo alone names the governance DID and revokes, and is never refused. */
  lemma GovernanceAnswers(cfg: Config, s: Chain, origin: Origin, did: Did)
    ensures Answer(cfg, s, origin, SetGovernanceDid(did)) == if origin.Root? then Ok(()) else Err(BadOrigin)
    ensures Answer(cfg, s, origin, RevokeWorkerCredential(did)) == if origin.Root? then Ok(()) else Err(BadOrigin)
    ensures origin.Root? ==>
            && Afterwards(cfg, s, origin, SetGovernanceDid(did)) == s.(kilt := s.kilt.(governanceDid := did))
            && Afterwards(cfg, s, origin, RevokeWorkerCredential(did)) ==
                 s.(kilt := s.kilt.(credentials := Without(s.kilt.credentials, did)))
  {
    assert s.kilt.credentials - {did} == Without(s.kilt.credentials, did);
  }

  function Without(credentials: map<Did, Credential>, did: Did): map<Did, Credential> {
    map d | d in credentials && d != did :: credentials[d]
  }

  /** Sudo alone issues, for at most 100 models; the credential ends with the period asked for. */
  lemma IssueAnswers(cfg: Config, s: Chain, origin: Origin, did: Did, models: seq<u32>, validity: Option<u32>)
    ensures var r := Answer(cfg, s, origin, IssueWorkerCredential(did, models, validity));
            && (r == Err(BadOrigin) <==> !origin.Root?)
            && (r == Err(InvalidBoundedVec) <==> origin.Root? && |models| > 100)
            && (r.Ok? <==> origin.Root? && |models| <= 100)
    ensures Answer(cfg, s, origin, IssueWorkerCredential(did, models, validity)).Ok? ==>
            var t := Afterwards(cfg, s, origin, IssueWorkerCredential(did, models, validity));
            && did in t.kilt.credentials
            && t == s.(kilt := s.kilt.(credentials := s.kilt.credentials[did := t.kilt.credentials[did]]))
            && (match t.kilt.credentials[did]
                case Credential(issuer, subject, listed, issuedAt, expiresAt) =>
                  && issuer == s.kilt.governanceDid && subject == did && listed == models && issuedAt == s.block
                  && (expiresAt.Some? <==> validity.Some?)
                  && (validity.Some? ==> EndsAfter(s.block, validity.value, expiresAt.value)))
  {
  }

  /** `end` is `period` blocks after `now`, or the last block number if there are not that many left. */
  predicate EndsAfter(now: u32, period: u32, end: u32) {
    end == now + period || (end == U32_MAX && now + period > U32_MAX)
  }

  /** Sudo alone suspends and is never refused: the account with that hash, if registered, and nobody else. */
  lemma SuspensionAnswers(cfg: Config, s: Chain, origin: Origin, did: Did, duration: Option<u32>, until: u32)
    requires cfg.WellFormed() && KiltInv(cfg, s.kilt, s.block)
    requires EndsAfter(s.block, if duration.Some? then duration.value else cfg.workerSuspensionPeriod, until)
    ensures Answer(cfg, s, origin, SuspendWorker(did, duration)) == if origin.Root? then Ok(()) else Err(BadOrigin)
    ensures origin.Root? ==>
            var t := Afterwards(cfg, s, origin, SuspendWorker(did, duration));
            t == s.(kilt := t.kilt) && SuspendsByHash(cfg, s.kilt, t.kilt, did, until)
  {
    SuspendMeetsHash(cfg, s.kilt, s.block, did, until);
    assert SatAdd(s.block, if duration.Some? then duration.value else cfg.workerSuspensionPeriod) == until;
  }

  /** The account whose hash is `did`, if registered, is suspended until that block, and nothing else differs. */
  ghost predicate SuspendsByHash(cfg: Config, k: Kilt, k': Kilt, did: Did, until: u32) {
    && k' == k.(workerDids := k'.workerDids)
    && k'.workerDids.Keys == k.workerDids.Keys
    && forall a <- k.workerDids ::
         k'.workerDids[a] ==
         if cfg.hash(a) == did.bytes then k.workerDids[a].(status := Suspended(until)) else k.workerDids[a]
  }

  lemma SuspendMeetsHash(cfg: Config, k: Kilt, now: u32, did: Did, until: u32)
    requires cfg.WellFormed() && KiltInv(cfg, k, now)
    ensures SuspendsByHash(cfg, k, k.Suspend(did, until), did, until)
  {
    forall a <- k.workerDids ensures k.workerDids[a].did == DidIdentifier(cfg.hash(a)) {
      assert IdentityOk(cfg, k, a, now);
      DidIsHash(cfg, a);
    }
  }

  // -------------------------------------------------------------- pallet-qx-faucet

  /**
   A claim is refused for a running cooldown, then for the lifetime cap, then for a pot of less than
   a drip, each by its own error; past these only the keep-alive transfer can refuse it.
   */
  lemma ClaimAnswers(cfg: Config, s: Chain, origin: Origin, a: Account)
    requires LedgerInv(s.ledger)
    ensures var r := Answer(cfg, s, origin, Claim(a));
            var rested, left := Rested(cfg, s.faucet, s.block, a), HasClaimsLeft(cfg, s.faucet, a);
            var pot, drip, least := Free(s.ledger, cfg.faucetPot), cfg.dripAmount, cfg.existentialDeposit;
            var free := origin.Unsigned? && rested && left && pot >= drip && (a == cfg.faucetPot || drip == 0);
            var paying := origin.Unsigned? && rested && left && pot >= drip && a != cfg.faucetPot && drip != 0;
            && (r == Err(BadOrigin) <==> !origin.Unsigned?)
            && (r == Err(ClaimTooSoon) <==> origin.Unsigned? && !rested)
            && (r == Err(MaxClaimsReached) <==> origin.Unsigned? && rested && !left)
            && (r == Err(FaucetEmpty) <==> origin.Unsigned? && rested && left && pot < drip)
            && (r == Err(NotExpendable) <==> paying && pot < drip + least)
            && (r == Err(BelowMinimum) <==> paying && pot >= drip + least && Free(s.ledger, a) + drip < least)
            && (r.Ok? <==> free || (paying && pot >= drip + least && Free(s.ledger, a) + drip >= least))
  {
    if a != cfg.faucetPot {
      NoOverflow(s.ledger, cfg.faucetPot, a);
    }
  }

  /** A paid claim moves one drip from the pot to the account and records the block and one claim more. */
  lemma ClaimLeaves(cfg: Config, s: Chain, origin: Origin, a: Account, b: Account)
    requires Answer(cfg, s, origin, Claim(a)).Ok?
    ensures var t := Afterwards(cfg, s, origin, Claim(a));
            && t == s.(faucet := t.faucet, ledger := t.ledger)
            && t.faucet.lastClaim == s.faucet.lastClaim[a := s.block]
            && t.faucet.claimCount ==
                 s.faucet.claimCount[a := (if a in s.faucet.claimCount then s.faucet.claimCount[a] else 0) + 1]
            && Free(t.ledger, b) == Free(s.ledger, b)
                 + (if b == a then cfg.dripAmount else 0) - (if b == cfg.faucetPot then cfg.dripAmount else 0)
  {
    TransferMoves(cfg, s.ledger, cfg.faucetPot, a, cfg.dripAmount, b);
  }

  /** Anyone may fund the faucet, however little it holds, with what it can spare above the existential deposit. */
  lemma FundingAnswers(cfg: Config, s: Chain, origin: Origin, amount: u128)
    requires LedgerInv(s.ledger)
    ensures var r := Answer(cfg, s, origin, FundFaucet(amount));
            var pot, least := Free(s.ledger, cfg.faucetPot), cfg.existentialDeposit;
            var idle := origin.Signed? && (amount == 0 || origin.who == cfg.faucetPot);
            var paying := origin.Signed? && amount != 0 && origin.who != cfg.faucetPot;
            && (r == Err(BadOrigin) <==> !origin.Signed?)
            && (r == Err(FundsUnavailable) <==> paying && Free(s.ledger, origin.who) < amount)
            && (r == Err(NotExpendable) <==> paying && amount <= Free(s.ledger, origin.who) < amount + least)
            && (r == Err(BelowMinimum) <==>
                  paying && Free(s.ledger, origin.who) >= amount + least && pot + amount < least)
            && (r.Ok? <==> idle || (paying && Free(s.ledger, origin.who) >= amount + least && pot + amount >= least))
  {
    if origin.Signed? && origin.who != cfg.faucetPot {
      NoOverflow(s.ledger, origin.who, cfg.faucetPot);
    }
  }

  /** Accepted funding moves the amount from the signer to the pot and changes nothing else. */
  lemma FundingLeaves(cfg: Config, s: Chain, origin: Origin, amount: u128, b: Account)
    requires Answer(cfg, s, origin, FundFaucet(amount)).Ok?
    ensures var t := Afterwards(cfg, s, origin, FundFaucet(amount));
            && origin.Signed? && t == s.(ledger := t.ledger)
            && Free(t.ledger, b) == Free(s.ledger, b)
                 + (if b == cfg.faucetPot then amount else 0) - (if b == origin.who then amount else 0)
  {
    TransferMoves(cfg, s.ledger, origin.who, cfg.faucetPot, amount, b);
  }

  // ------------------------------------------------------------ what is no call

  /** A block that begins moves the number up to its own, and a balance change made elsewhere moves balances alone. */
  lemma OtherEventsLeave(cfg: Config, s: Chain, number: u32, ledger: Ledger)
    ensures var t := Step(cfg, s, NewBlock(number));
            && t == s.(block := t.block)
            && t.block >= s.block && t.block >= number && (t.block == s.block || t.block == number)
    ensures LedgerInv(ledger) ==> Step(cfg, s, Elsewhere(ledger)) == s.(ledger := ledger)
    ensures !LedgerInv(ledger) ==> Step(cfg, s, Elsewhere(ledger)) == s
  {
  }

  // ----------------------------------------------------------------- in QX terms

  /** On this chain a worker has at most 100 requests open, and a further one is refused by exactly then. */
  lemma QxQueueBound(hash: Account -> Bytes, s: Chain, origin: Origin, target: Account, prompt: Bytes, maxTokens: u32)
    requires QxConfig(hash).WellFormed() && Inv(QxConfig(hash), s)
    ensures |s.ai.Open(target)| <= 100
    ensures Answer(QxConfig(hash), s, origin, SubmitRequest(target, prompt, maxTokens)) == Err(AIWorkerQueueFull) <==>
            origin.Signed? && StandingOf(QxConfig(hash), s, target) == InTerm && |s.ai.Open(target)| == 100
  {
    RequestAnswers(QxConfig(hash), s, origin, target, prompt, maxTokens);
    assert QueueIndexes(QxConfig(hash), s.ai, target);
    OpenCountsQueue(QxConfig(hash), s.ai, target);
  }

  /** A suspension without a period holds a worker through the day's 14,400 blocks that follow it. */
  lemma QxDefaultSuspension(hash: Account -> Bytes, s: Chain, a: Account)
    requires QxConfig(hash).WellFormed() && KiltInv(QxConfig(hash), s.kilt, s.block)
    requires a in s.kilt.workerDids && s.block + 14400 <= U32_MAX
    ensures var t := Afterwards(QxConfig(hash), s, Root, SuspendWorker(DidIdentifier(hash(a)), None));
            a in t.kilt.workerDids && t.kilt.workerDids[a].status == Suspended(s.block + 14400)
  {
    SuspensionAnswers(QxConfig(hash), s, Root, DidIdentifier(hash(a)), None, s.block + 14400);
  }

  /** A pot with less than 500 units above a drip pays nobody else, a fuller one pays anyone who may claim. */
  lemma QxKeepAlive(hash: Account -> Bytes, s: Chain, a: Account)
    requires LedgerInv(s.ledger) && a != FaucetPotAccount()
    requires Rested(QxConfig(hash), s.faucet, s.block, a) && HasClaimsLeft(QxConfig(hash), s.faucet, a)
    ensures var pot := Free(s.ledger, FaucetPotAccount());
            var r := Answer(QxConfig(hash), s, Unsigned, Claim(a));
            && (r == Err(FaucetEmpty) <==> pot < 10_000_000_000_000)
            && (r == Err(NotExpendable) <==> 10_000_000_000_000 <= pot < 10_000_000_000_500)
            && (r.Ok? <==> 10_000_000_000_500 <= pot)
  {
    ClaimAnswers(QxConfig(hash), s, Unsigned, a);
  }

  /** The pot account spells its seed, and is padded with zeros. */
  lemma PotSpellsSeed(i: nat)
    requires i < 32
    ensures FaucetPotAccount().bytes[i] == if i < |"qx/faucet"| then "qx/faucet"[i] as int else 0
  {
  }
}
