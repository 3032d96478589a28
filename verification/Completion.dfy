/** Order independence: completing a set of open requests ends in the same place whatever the order. */
module Completion {
  import opened Primitives
  import opened Sequences
  import opened Kilts
  import opened Ais
  import opened Runtimes
  import opened Runs

  datatype Submission = Submission(worker: Account, id: u32, output: Bytes)
  {
    function Event(): Event {
      Extrinsic(Signed(worker), SubmitInference(id, output))
    }

    /** The result it stores when accepted at block `now`. */
    function Result(cfg: Config, now: u32): InferenceResult {
      InferenceResult(id, worker, DidOf(cfg, worker), output, InferenceStatus.Completed, now)
    }
  }

  function Events(subs: seq<Submission>): (events: seq<Event>)
    ensures |events| == |subs|
    ensures forall k :: 0 <= k < |subs| ==> events[k] == subs[k].Event()
  {
    seq(|subs|, k requires 0 <= k < |subs| => subs[k].Event())
  }

  function Ids(subs: seq<Submission>): set<u32> {
    set sub | sub in subs :: sub.id
  }

  /** Submissions each of which would be accepted right now, no two for the same request. */
  ghost predicate Batch(cfg: Config, s: Chain, subs: seq<Submission>) {
    && (forall sub <- subs :: Accepted(cfg, s, sub.Event()))
    && (forall i, j :: 0 <= i < j < |subs| ==> subs[i].id != subs[j].id)
  }

  // ------------------------------------------- what a batch leaves behind

  /** Exactly the batch's requests are completed. */
  ghost predicate RequestsDone(ai: Ai, ids: set<u32>, ai': Ai) {
    && ai'.requests.Keys == ai.requests.Keys
    && (forall id <- ai.requests ::
          ai'.requests[id] ==
          if id in ids then ai.requests[id].(status := RequestStatus.Completed) else ai.requests[id])
  }

  /** Exactly the batch's ids are out of the queues. */
  ghost predicate QueuesDone(ai: Ai, ids: set<u32>, ai': Ai) {
    && ai'.queues.Keys == ai.queues.Keys
    && (forall w :: ai'.Queue(w) == Exclude(ai.Queue(w), ids))
  }

  /** Exactly the batch's results are added, numbered in the order of submission. */
  ghost predicate ResultsDone(cfg: Config, now: u32, ai: Ai, subs: seq<Submission>, ai': Ai) {
    && ai'.Answered() == ai.Answered() + |subs|
    && (forall i: u32 :: i in ai'.results <==> i in ai.results || ai.Answered() <= i < ai'.Answered())
    && (forall i <- ai.results :: i in ai'.results && ai'.results[i] == ai.results[i])
    && (forall i: u32 :: ai.Answered() <= i < ai'.Answered() ==>
          i in ai'.results && ai'.results[i] == subs[i - ai.Answered()].Result(cfg, now))
  }

  ghost predicate BatchDone(cfg: Config, s: Chain, subs: seq<Submission>, t: Chain) {
    && t == s.(ai := t.ai)
    && t.ai.nextRequestId == s.ai.nextRequestId
    && t.ai.requestWorker == s.ai.requestWorker
    && t.ai.online == s.ai.online
    && RequestsDone(s.ai, Ids(subs), t.ai)
    && QueuesDone(s.ai, Ids(subs), t.ai)
    && ResultsDone(cfg, s.block, s.ai, subs, t.ai)
  }

  lemma NotElsewhere(cfg: Config, ai: Ai, v: Account, w: Account, id: u32)
    requires AiInv(cfg, ai) && id in ai.Queue(v) && v != w
    ensures id !in ai.Queue(w)
  {
    if id in ai.Queue(w) {
      NoSharedIds(cfg, ai, v, w, id);
    }
  }

  lemma QueuesDoneStep(cfg: Config, ai: Ai, ids: set<u32>, ai': Ai, result: InferenceResult)
    requires AiInv(cfg, ai') && QueuesDone(ai, ids, ai')
    requires ai'.IsOpen(result.worker, result.requestId)
    ensures QueuesDone(ai, ids + {result.requestId}, ai'.Completed(result))
  {
    var id := result.requestId;
    assert QueueIndexes(cfg, ai', result.worker);
    assert id in ai'.Queue(result.worker);
    forall w ensures ai'.Completed(result).Queue(w) == Exclude(ai.Queue(w), ids + {id}) {
      CompletedQueues(cfg, ai', result, w);
      ExcludeCompose(ai.Queue(w), ids, {id});
      if w != result.worker {
        NotElsewhere(cfg, ai', result.worker, w, id);
        ExcludeAbsent(ai'.Queue(w), {id});
      }
    }
  }

  lemma ResultsDoneStep(cfg: Config, now: u32, ai: Ai, subs: seq<Submission>, ai': Ai, sub: Submission)
    requires IdsDense(ai') && ResultsDone(cfg, now, ai, subs, ai')
    requires sub.id in ai'.requests && ai'.nextInferenceId !in ai'.results
    ensures ResultsDone(cfg, now, ai, subs + [sub], ai'.Completed(sub.Result(cfg, now)))
  {
  }

  lemma RequestsDoneStep(ai: Ai, ids: set<u32>, ai': Ai, result: InferenceResult)
    requires RequestsDone(ai, ids, ai') && result.requestId in ai'.requests
    ensures RequestsDone(ai, ids + {result.requestId}, ai'.Completed(result))
  {
  }

  /** One more submission of the batch. */
  lemma BatchGrows(cfg: Config, s: Chain, t: Chain, subs: seq<Submission>, sub: Submission)
    requires AiInv(cfg, t.ai) && BatchDone(cfg, s, subs, t)
    requires t.ai.IsOpen(sub.worker, sub.id)
    ensures BatchDone(cfg, s, subs + [sub], t.(ai := t.ai.Completed(sub.Result(cfg, s.block))))
  {
    var result := sub.Result(cfg, s.block);
    InferenceIdsSuffice(cfg, t.ai, sub.worker, sub.id);
    IdsGrow(subs, sub);
    RequestsDoneStep(s.ai, Ids(subs), t.ai, result);
    QueuesDoneStep(cfg, s.ai, Ids(subs), t.ai, result);
    ResultsDoneStep(cfg, s.block, s.ai, subs, t.ai, sub);
  }

  lemma IdsGrow(subs: seq<Submission>, sub: Submission)
    ensures Ids(subs + [sub]) == Ids(subs) + {sub.id}
  {
    assert forall x :: x in subs + [sub] <==> x in subs || x == sub;
  }

  /** Completing some requests leaves every other acceptable submission acceptable. */
  lemma StillAccepted(cfg: Config, s: Chain, t: Chain, subs: seq<Submission>, sub: Submission)
    requires KiltInv(cfg, s.kilt, s.block)
    requires Accepted(cfg, s, sub.Event())
    requires t.kilt == s.kilt && t.block == s.block && RequestsDone(s.ai, Ids(subs), t.ai)
    requires sub.id !in Ids(subs)
    ensures Accepted(cfg, t, sub.Event())
  {
    assert t.ai.requests[sub.id] == s.ai.requests[sub.id];
  }

  lemma BatchPrefix(cfg: Config, s: Chain, init: seq<Submission>, last: Submission)
    requires Batch(cfg, s, init + [last])
    ensures Batch(cfg, s, init) && Accepted(cfg, s, last.Event()) && last.id !in Ids(init)
    ensures Init(Events(init + [last])) == Events(init)
  {
    var subs := init + [last];
    assert subs[|init|] in subs;
    forall sub <- init ensures sub in subs {
    }
    forall i, j | 0 <= i < j < |init| ensures init[i].id != init[j].id {
      assert subs[i].id != subs[j].id;
    }
    forall sub <- init ensures sub.id != last.id {
      var i :| 0 <= i < |init| && init[i] == sub;
      assert subs[i].id != subs[|init|].id;
    }
  }

  /** After part of a batch, the next submission is still accepted and extends what is done. */
  lemma BatchContinues(cfg: Config, s: Chain, init: seq<Submission>, last: Submission)
    requires cfg.WellFormed() && Inv(cfg, s) && ReuseFree(cfg, s, Events(init))
    requires BatchDone(cfg, s, init, Run(cfg, s, Events(init)))
    requires Accepted(cfg, s, last.Event()) && last.id !in Ids(init)
    ensures Accepted(cfg, Run(cfg, s, Events(init)), last.Event())
    ensures BatchDone(cfg, s, init + [last], Step(cfg, Run(cfg, s, Events(init)), last.Event()))
  {
    var t := Run(cfg, s, Events(init));
    RunKeepsInv(cfg, s, Events(init));
    StillAccepted(cfg, s, t, init, last);
    AcceptedInference(cfg, t, last.Event());
    BatchGrows(cfg, s, t, init, last);
  }

  /** Any order of a batch is accepted throughout, and ends in the state the set of its submissions determines. */
  lemma {:induction false} BatchCompletes(cfg: Config, s: Chain, subs: seq<Submission>)
    requires cfg.WellFormed() && Reachable(cfg, s) && Batch(cfg, s, subs)
    ensures ReuseFree(cfg, s, Events(subs))
    ensures AllAccepted(cfg, s, Events(subs))
    ensures BatchDone(cfg, s, subs, Run(cfg, s, Events(subs)))
  {
    if subs == [] {
      ReachableInv(cfg, s);
      NothingDone(cfg, s);
    } else {
      var init, last := subs[..|subs| - 1], subs[|subs| - 1];
      assert subs == init + [last];
      BatchPrefix(cfg, s, init, last);
      BatchCompletes(cfg, s, init);
      assert Inv(cfg, s) by {
        ReachableInv(cfg, s);
      }
      BatchContinues(cfg, s, init, last);
    }
  }

  lemma NothingDone(cfg: Config, s: Chain)
    requires IdsDense(s.ai)
    ensures BatchDone(cfg, s, [], s)
  {
    assert Ids([]) == {};
    forall w ensures Exclude(s.ai.Queue(w), {}) == s.ai.Queue(w) {
      ExcludeAbsent(s.ai.Queue(w), {});
    }
  }

  // -------------------------------------------------------------- confluence

  /** Storages that agree on what is open and on the queues have handed out equally many inference ids. */
  lemma SameCounters(ai: Ai, other: Ai)
    requires IdsDense(ai) && IdsDense(other) && Conserved(ai) && Conserved(other)
    requires ai.Made() == other.Made() && ai.queues == other.queues
    ensures ai.nextInferenceId == other.nextInferenceId && ai.Answered() == other.Answered()
    ensures ai.results.Keys == other.results.Keys
  {
    assert QueueLengths(ai) == QueueLengths(other);
    assert forall i: u32 :: i in ai.results <==> i in other.results;
  }

  lemma SameEnds(s: Chain, ids: set<u32>, ai: Ai, other: Ai)
    requires RequestsDone(s.ai, ids, ai) && RequestsDone(s.ai, ids, other)
    requires QueuesDone(s.ai, ids, ai) && QueuesDone(s.ai, ids, other)
    ensures ai.requests == other.requests && ai.queues == other.queues
  {
    forall w <- ai.queues ensures ai.queues[w] == other.queues[w] {
      assert ai.Queue(w) == other.Queue(w);
    }
  }

  /** The place in one order of what the other has at place `k`. */
  lemma PlaceIn(xs: seq<Submission>, ys: seq<Submission>, k: nat) returns (m: nat)
    requires forall sub :: sub in xs <==> sub in ys
    requires k < |xs|
    ensures m < |ys| && ys[m] == xs[k]
  {
    assert xs[k] in xs;
    m :| 0 <= m < |ys| && ys[m] == xs[k];
  }

  /** The result of the submission at place `k` is the one numbered `k` after the old ones. */
  lemma ResultAt(cfg: Config, now: u32, ai: Ai, subs: seq<Submission>, ai': Ai, k: nat) returns (i: u32)
    requires ResultsDone(cfg, now, ai, subs, ai') && k < |subs|
    ensures i == ai.Answered() + k
    ensures i in ai'.results && ai'.results[i] == subs[k].Result(cfg, now)
  {
    i := ai.Answered() + k;
  }

  /** Each result of one order occurs in the other, under the same id if it was there before. */
  lemma ResultReappears(cfg: Config, s: Chain, xs: seq<Submission>, ai: Ai, ys: seq<Submission>, other: Ai, i: u32)
    returns (j: u32)
    requires forall sub :: sub in xs <==> sub in ys
    requires ResultsDone(cfg, s.block, s.ai, xs, ai) && ResultsDone(cfg, s.block, s.ai, ys, other)
    requires ai.Answered() == other.Answered()
    requires i in ai.results
    ensures Renamed(s, ai, other, i, j)
  {
    if i in s.ai.results {
      j := i;
    } else {
      var k := i - s.ai.Answered();
      var m := PlaceIn(xs, ys, k);
      var own := ResultAt(cfg, s.block, s.ai, xs, ai, k);
      j := ResultAt(cfg, s.block, s.ai, ys, other, m);
    }
  }

  ghost predicate Renamed(s: Chain, ai: Ai, other: Ai, i: u32, j: u32) {
    && i in ai.results && j in other.results && other.results[j] == ai.results[i]
    && (i in s.ai.results ==> j == i)
  }

  ghost predicate ResultsDistinct(ai: Ai) {
    forall i, j :: i in ai.results && j in ai.results && ai.results[i] == ai.results[j] ==> i == j
  }

  /** No two inference ids hold the same result: they would answer the same request. */
  lemma ResultsAreDistinct(ai: Ai)
    requires ResultsMatch(ai)
    ensures ResultsDistinct(ai)
  {
    forall i, j | i in ai.results && j in ai.results && ai.results[i] == ai.results[j] ensures i == j {
      assert AnsweredBy(ai, ai.results[i].requestId, i) && AnsweredBy(ai, ai.results[i].requestId, j);
    }
  }

  /** `renumber` is a bijection between the result ids that carries each result over and fixes the old ids. */
  ghost predicate Renumbers(s: Chain, ai: Ai, other: Ai, renumber: map<u32, u32>) {
    && renumber.Keys == ai.results.Keys
    && (forall i <- renumber :: Renamed(s, ai, other, i, renumber[i]))
    && (forall i, j :: i in renumber && j in renumber && renumber[i] == renumber[j] ==> i == j)
    && (forall j <- other.results :: exists i :: i in renumber && renumber[i] == j)
  }

  lemma RenumbersWhenAllRenamed(s: Chain, ai: Ai, other: Ai, renumber: map<u32, u32>)
    requires ResultsDistinct(ai) && ResultsDistinct(other)
    requires renumber.Keys == ai.results.Keys
    requires forall i <- renumber :: Renamed(s, ai, other, i, renumber[i])
    requires forall j <- other.results :: exists i :: Renamed(s, other, ai, j, i)
    ensures Renumbers(s, ai, other, renumber)
  {
    forall i, j | i in renumber && j in renumber && renumber[i] == renumber[j] ensures i == j {
      assert Renamed(s, ai, other, i, renumber[i]) && Renamed(s, ai, other, j, renumber[j]);
    }
    forall j <- other.results ensures exists i :: i in renumber && renumber[i] == j {
      var i :| Renamed(s, other, ai, j, i);
      assert i in renumber && Renamed(s, ai, other, i, renumber[i]);
    }
  }

  lemma AllRenamed(cfg: Config, s: Chain, xs: seq<Submission>, ai: Ai, ys: seq<Submission>, other: Ai)
    requires forall sub :: sub in xs <==> sub in ys
    requires ResultsDone(cfg, s.block, s.ai, xs, ai) && ResultsDone(cfg, s.block, s.ai, ys, other)
    requires ai.Answered() == other.Answered()
    ensures forall i <- ai.results :: exists j :: Renamed(s, ai, other, i, j)
  {
    forall i <- ai.results ensures exists j :: Renamed(s, ai, other, i, j) {
      var j := ResultReappears(cfg, s, xs, ai, ys, other, i);
    }
  }

  ghost function Renumbering(s: Chain, ai: Ai, other: Ai): map<u32, u32>
    requires forall i <- ai.results :: exists j :: Renamed(s, ai, other, i, j)
  {
    map i | i in ai.results :: (var j :| Renamed(s, ai, other, i, j); j)
  }

  /** Two ends of the same submissions agree up to renumbering. */
  lemma EndsAgree(cfg: Config, s: Chain, xs: seq<Submission>, t: Chain, ys: seq<Submission>, u: Chain)
    returns (renumber: map<u32, u32>)
    requires forall sub :: sub in xs <==> sub in ys
    requires BatchDone(cfg, s, xs, t) && BatchDone(cfg, s, ys, u)
    requires ResultsDistinct(t.ai) && IdsDense(t.ai) && Conserved(t.ai)
    requires ResultsDistinct(u.ai) && IdsDense(u.ai) && Conserved(u.ai)
    ensures t == u.(ai := u.ai.(results := t.ai.results))
    ensures Renumbers(s, t.ai, u.ai, renumber)
  {
    assert Ids(xs) == Ids(ys);
    SameEnds(s, Ids(xs), t.ai, u.ai);
    SameCounters(t.ai, u.ai);
    AllRenamed(cfg, s, xs, t.ai, ys, u.ai);
    AllRenamed(cfg, s, ys, u.ai, xs, t.ai);
    renumber := Renumbering(s, t.ai, u.ai);
    RenumbersWhenAllRenamed(s, t.ai, u.ai, renumber);
  }

  /** The end of a batch, with what the comparison of two of them needs of the invariant. */
  lemma BatchEnd(cfg: Config, s: Chain, subs: seq<Submission>)
    requires cfg.WellFormed() && Reachable(cfg, s) && Batch(cfg, s, subs)
    ensures AllAccepted(cfg, s, Events(subs))
    ensures var t := Run(cfg, s, Events(subs));
            BatchDone(cfg, s, subs, t) && ResultsDistinct(t.ai) && IdsDense(t.ai) && Conserved(t.ai)
  {
    ReachableInv(cfg, s);
    BatchCompletes(cfg, s, subs);
    RunKeepsInv(cfg, s, Events(subs));
    ResultsAreDistinct(Run(cfg, s, Events(subs)).ai);
  }

  lemma SameMembers(xs: seq<Submission>, ys: seq<Submission>)
    requires multiset(xs) == multiset(ys)
    ensures forall sub :: sub in xs <==> sub in ys
  {
    forall sub ensures sub in xs <==> sub in ys {
      assert sub in xs <==> sub in multiset(xs);
      assert sub in ys <==> sub in multiset(ys);
    }
  }

  lemma TwoPlaces<T>(xs: seq<T>, i: nat, j: nat)
    requires i < j < |xs| && xs[i] == xs[j]
    ensures multiset(xs)[xs[i]] >= 2
  {
    assert xs == xs[..j] + xs[j..] && xs[..j][i] == xs[j..][0] == xs[i];
    assert xs[i] in multiset(xs[..j]) && xs[i] in multiset(xs[j..]);
    assert multiset(xs) == multiset(xs[..j]) + multiset(xs[j..]);
  }

  lemma {:induction false} OnePlace<T>(xs: seq<T>, x: T)
    requires forall i, j :: 0 <= i < j < |xs| ==> xs[i] != xs[j]
    ensures multiset(xs)[x] <= 1
  {
    if xs != [] {
      var init, last := xs[..|xs| - 1], xs[|xs| - 1];
      assert xs == init + [last];
      forall i, j | 0 <= i < j < |init| ensures init[i] != init[j] {
        assert xs[i] != xs[j];
      }
      OnePlace(init, x);
      forall i | 0 <= i < |init| ensures init[i] != last {
        assert xs[i] != xs[|init|];
      }
      assert last !in multiset(init);
    }
  }

  /** Any order of a batch is a batch. */
  lemma BatchReordered(cfg: Config, s: Chain, xs: seq<Submission>, ys: seq<Submission>)
    requires Batch(cfg, s, xs) && multiset(xs) == multiset(ys)
    ensures Batch(cfg, s, ys)
  {
    SameMembers(xs, ys);
    forall i, j | 0 <= i < j < |ys| ensures ys[i].id != ys[j].id {
      if ys[i] == ys[j] {
        TwoPlaces(ys, i, j);
        assert forall m, n :: 0 <= m < n < |xs| ==> xs[m] != xs[n];
        OnePlace(xs, ys[i]);
      } else {
        assert ys[i] in xs && ys[j] in xs;
      }
    }
  }

  /**
   Confluence: two orders of the same submissions, by any mix of workers, are both accepted
   throughout and end in the same chain state, up to a renumbering of the new inference ids.
   */
  lemma Confluence(cfg: Config, s: Chain, xs: seq<Submission>, ys: seq<Submission>)
    returns (renumber: map<u32, u32>)
    requires cfg.WellFormed() && Reachable(cfg, s)
    requires Batch(cfg, s, xs) && multiset(xs) == multiset(ys)
    ensures AllAccepted(cfg, s, Events(xs)) && AllAccepted(cfg, s, Events(ys))
    ensures var t, u := Run(cfg, s, Events(xs)), Run(cfg, s, Events(ys));
            && t == u.(ai := u.ai.(results := t.ai.results))
            && Renumbers(s, t.ai, u.ai, renumber)
  {
    var t, u := Run(cfg, s, Events(xs)), Run(cfg, s, Events(ys));
    SameMembers(xs, ys);
    BatchReordered(cfg, s, xs, ys);
    BatchEnd(cfg, s, xs);
    BatchEnd(cfg, s, ys);
    renumber := EndsAgree(cfg, s, xs, t, ys, u);
  }

  /** Submitting all of a worker's queue, in any order, empties it and leaves every other queue as it was. */
  lemma WholeQueueDrains(cfg: Config, s: Chain, subs: seq<Submission>, w: Account, v: Account)
    requires cfg.WellFormed() && Reachable(cfg, s) && Batch(cfg, s, subs)
    requires Ids(subs) == Members(s.ai.Queue(w))
    ensures Run(cfg, s, Events(subs)).ai.Queue(w) == []
    ensures v != w ==> Run(cfg, s, Events(subs)).ai.Queue(v) == s.ai.Queue(v)
  {
    ReachableInv(cfg, s);
    BatchCompletes(cfg, s, subs);
    ExcludeAll(s.ai.Queue(w), Ids(subs));
    if v != w {
      forall id <- s.ai.Queue(v) ensures id !in Ids(subs) {
        NotElsewhere(cfg, s.ai, v, w, id);
      }
      ExcludeAbsent(s.ai.Queue(v), Ids(subs));
    }
  }
}
