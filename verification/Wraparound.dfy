/**
 The end of the request ids. From every genesis some run hands out all of them; the counter is then
 back at zero, and the next request accepted takes id zero from the request that had it. Results
 about request ids are therefore stated for runs that accept no more requests than ids are left.
 */
module Wraparound {
  import opened Primitives
  import opened Sequences
  import opened Kilts
  import opened Ais
  import opened Runtimes
  import opened Runs
  import CredentialTerms

  function Ask(w: Account, prompt: Bytes): Event {
    Extrinsic(Signed(w), SubmitRequest(w, prompt, 0))
  }

  function Answer(w: Account, id: u32): Event {
    Extrinsic(Signed(w), SubmitInference(id, []))
  }

  /** Registers `w` and gives it a credential without end. */
  function Setup(cfg: Config, w: Account): seq<Event> {
    [Extrinsic(Signed(w), CreateWorkerDid([], []))] + [Extrinsic(Root, IssueWorkerCredential(DidOf(cfg, w), [], None))]
  }

  /** Then asks and answers `n` requests, one at a time. */
  function Rounds(cfg: Config, w: Account, n: nat): seq<Event>
    requires n <= ID_SPACE
  {
    if n == 0 then Setup(cfg, w) else Rounds(cfg, w, n - 1) + [Ask(w, [])] + [Answer(w, n - 1)]
  }

  /** `w` may act, has nothing to do, and `n` requests have been made. */
  ghost predicate Idle(cfg: Config, w: Account, n: nat, t: Chain) {
    && t.ai.Made() == n
    && w in t.kilt.workerDids
    && CredentialTerms.TermsOf(t.kilt, DidOf(cfg, w)).ValidAt(t.block)
    && t.ai.Queue(w) == []
  }

  lemma SetupRegisters(cfg: Config, g: Chain, w: Account)
    requires Genesis(g)
    ensures var t := Step(cfg, g, Extrinsic(Signed(w), CreateWorkerDid([], [])));
            && t.block == 0 && t.ai == g.ai
            && w in t.kilt.workerDids && t.kilt.workerDids[w].status == Active
            && t.kilt.Owns(w, DidOf(cfg, w))
  {
  }

  lemma SetupRuns(cfg: Config, g: Chain, w: Account)
    requires cfg.WellFormed() && Genesis(g)
    ensures ReuseFree(cfg, g, Setup(cfg, w)) && Idle(cfg, w, 0, Run(cfg, g, Setup(cfg, w)))
  {
    var create := Extrinsic(Signed(w), CreateWorkerDid([], []));
    var issue := Extrinsic(Root, IssueWorkerCredential(DidOf(cfg, w), [], None));
    var p := Step(cfg, g, create);
    var t := Step(cfg, p, issue);
    assert [] + [create] == [create];
    RunSnoc(cfg, g, [], create);
    RunSnoc(cfg, g, [create], issue);
    SetupRegisters(cfg, g, w);
    assert KiltInv(cfg, g.kilt, g.block);
    IdentitiesLast(cfg, g, Setup(cfg, w));
    OtherCallsLeaveIdentities(cfg, p, issue);
    CredentialSource(cfg, p, issue, DidOf(cfg, w));
    CredentialTerms.FirstBlockOfOwner(cfg, t.kilt, t.block, DidOf(cfg, w), w);
  }

  lemma AskAccepted(cfg: Config, w: Account, prompt: Bytes, n: nat, t: Chain)
    requires cfg.WellFormed() && cfg.maxQueueSize > 0
    requires Reachable(cfg, t) && Idle(cfg, w, n, t)
    ensures Accepted(cfg, t, Ask(w, prompt))
    ensures Step(cfg, t, Ask(w, prompt)) == t.(ai := t.ai.Enqueued(RequestOf(t, Ask(w, prompt))))
  {
    CredentialTerms.WorkerFacts(cfg, t, w);
    CredentialTerms.RequestAcceptedIff(cfg, t, Signed(w), w, prompt, 0);
    AcceptedRequest(cfg, t, Ask(w, prompt));
  }

  /** Asking hands out the next id and leaves it as all there is in the queue. */
  lemma RoundOpens(cfg: Config, w: Account, n: u32, t: Chain)
    requires cfg.WellFormed() && cfg.maxQueueSize > 0
    requires Reachable(cfg, t) && Idle(cfg, w, n, t)
    ensures !Reuses(cfg, t, Ask(w, []))
    ensures var u := Step(cfg, t, Ask(w, []));
            && Reachable(cfg, u) && u.kilt == t.kilt && u.block == t.block
            && u.ai.Made() == n + 1 && u.ai.Queue(w) == [n]
  {
    ReachableInv(cfg, t);
    ReusesWhenExhausted(cfg, t, Ask(w, []));
    TakenMeansExhausted(t.ai);
    AskAccepted(cfg, w, [], n, t);
    IdsAdvance(cfg, t, Ask(w, []));
    ReachableOn(cfg, t, Ask(w, []));
  }

  /** Answering it leaves the worker with nothing to do. */
  lemma RoundCloses(cfg: Config, w: Account, n: u32, u: Chain)
    requires cfg.WellFormed() && Reachable(cfg, u)
    requires w in u.kilt.workerDids && CredentialTerms.TermsOf(u.kilt, DidOf(cfg, w)).ValidAt(u.block)
    requires u.ai.Made() == n + 1 && u.ai.Queue(w) == [n]
    ensures !Reuses(cfg, u, Answer(w, n))
    ensures Idle(cfg, w, n + 1, Step(cfg, u, Answer(w, n)))
  {
    CredentialTerms.InferenceAcceptedIff(cfg, u, Signed(w), n, []);
    ReachableInv(cfg, u);
    AcceptedInference(cfg, u, Answer(w, n));
    IdsAdvance(cfg, u, Answer(w, n));
    ExcludeAll([n], {n});
  }

  lemma RoundRuns(cfg: Config, g: Chain, w: Account, n: u32, before: seq<Event>)
    requires cfg.WellFormed() && cfg.maxQueueSize > 0 && Genesis(g)
    requires ReuseFree(cfg, g, before) && Idle(cfg, w, n, Run(cfg, g, before))
    ensures ReuseFree(cfg, g, before + [Ask(w, [])] + [Answer(w, n)])
    ensures Idle(cfg, w, n + 1, Run(cfg, g, before + [Ask(w, [])] + [Answer(w, n)]))
  {
    var t := Run(cfg, g, before);
    RunReaches(cfg, g, before);
    RoundOpens(cfg, w, n, t);
    RoundCloses(cfg, w, n, Step(cfg, t, Ask(w, [])));
    RunSnoc(cfg, g, before, Ask(w, []));
    RunSnoc(cfg, g, before + [Ask(w, [])], Answer(w, n));
  }

  lemma {:induction false} RoundsRun(cfg: Config, g: Chain, w: Account, n: nat)
    requires cfg.WellFormed() && cfg.maxQueueSize > 0 && Genesis(g) && n <= ID_SPACE
    ensures ReuseFree(cfg, g, Rounds(cfg, w, n))
    ensures Idle(cfg, w, n, Run(cfg, g, Rounds(cfg, w, n)))
  {
    if n == 0 {
      SetupRuns(cfg, g, w);
    } else {
      RoundsRun(cfg, g, w, n - 1);
      RoundRuns(cfg, g, w, n - 1, Rounds(cfg, w, n - 1));
    }
  }

  /** From every genesis some run hands out every id and reuses none, and the next request would reuse one. */
  lemma IdsRunOut(cfg: Config, g: Chain, w: Account, prompt: Bytes) returns (events: seq<Event>)
    requires cfg.WellFormed() && cfg.maxQueueSize > 0 && Genesis(g)
    ensures ReuseFree(cfg, g, events)
    ensures Idle(cfg, w, ID_SPACE, Run(cfg, g, events))
    ensures Reuses(cfg, Run(cfg, g, events), Ask(w, prompt))
  {
    events := Rounds(cfg, w, ID_SPACE);
    RoundsRun(cfg, g, w, ID_SPACE);
    var s := Run(cfg, g, events);
    RunReaches(cfg, g, events);
    ReachableInv(cfg, s);
    AskAccepted(cfg, w, prompt, ID_SPACE, s);
    ReusesWhenExhausted(cfg, s, Ask(w, prompt));
  }

  // ------------------------------------------------------------- what it costs

  /** With all ids handed out, whatever happens first, the next request accepted takes id zero from its request. */
  lemma ReuseTakesFirstId(cfg: Config, s: Chain, between: seq<Event>,
                          who: Account, target: Account, prompt: Bytes, maxTokens: u32)
    requires cfg.WellFormed() && Inv(cfg, s) && s.ai.Made() == ID_SPACE
    requires RequestsAccepted(cfg, s, between) == 0
    requires Accepted(cfg, Run(cfg, s, between), Extrinsic(Signed(who), SubmitRequest(target, prompt, maxTokens)))
    ensures 0 in s.ai.requests
    ensures var u := Run(cfg, s, between);
            var ai' := Step(cfg, u, Extrinsic(Signed(who), SubmitRequest(target, prompt, maxTokens))).ai;
            && 0 in ai'.requests
            && ai'.requests[0] == Request(who, target, prompt, maxTokens, RequestStatus.Queued, u.block)
  {
    var u, e := Run(cfg, s, between), Extrinsic(Signed(who), SubmitRequest(target, prompt, maxTokens));
    ReuseFreeIffIdsLast(cfg, s, between);
    RunKeepsInv(cfg, s, between);
    IdsHandedOut(cfg, s, between);
    TakenMeansExhausted(u.ai);
    AcceptedRequest(cfg, u, e);
  }

  /** A request of a reachable chain is lost: id zero ends up naming a different request. */
  lemma ReuseLosesRequest(cfg: Config, g: Chain, w: Account) returns (events: seq<Event>, last: Event)
    requires cfg.WellFormed() && cfg.maxQueueSize > 0 && Genesis(g)
    ensures ReuseFree(cfg, g, events)
    ensures !RecordsKept(Run(cfg, g, events).ai, Run(cfg, g, events + [last]).ai)
  {
    events := IdsRunOut(cfg, g, w, []);
    var s := Run(cfg, g, events);
    RunReaches(cfg, g, events);
    ReachableInv(cfg, s);
    TakenMeansExhausted(s.ai);
    var prompt := if s.ai.requests[0].prompt == [] then [0] else [];
    last := Ask(w, prompt);
    AskAccepted(cfg, w, prompt, ID_SPACE, s);
    ReuseTakesFirstId(cfg, s, [], w, w, prompt, 0);
    RunSnoc(cfg, g, events, last);
  }
}
