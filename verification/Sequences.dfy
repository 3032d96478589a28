/** Strictly increasing id lists and the filter that `BoundedVec::retain` applies to them. */
module Sequences {
  import opened Primitives


  ghost predicate Increasing(q: seq<u32>) {
    forall i, j :: 0 <= i < j < |q| ==> q[i] < q[j]
  }

  /** `q` without the ids in `drop`, order kept. */
  function Exclude(q: seq<u32>, drop: set<u32>): (r: seq<u32>)
    ensures |r| <= |q|
  {
    if q == [] then []
    else if q[|q| - 1] in drop then Exclude(q[..|q| - 1], drop)
    else Exclude(q[..|q| - 1], drop) + [q[|q| - 1]]
  }

  lemma {:induction false} ExcludeMembers(q: seq<u32>, drop: set<u32>)
    ensures forall x :: x in Exclude(q, drop) <==> x in q && x !in drop
  {
    if q == [] {
    } else {
      ExcludeMembers(q[..|q| - 1], drop);
      assert q == q[..|q| - 1] + [q[|q| - 1]];
    }
  }

  lemma {:induction false} ExcludeIncreasing(q: seq<u32>, drop: set<u32>)
    requires Increasing(q)
    ensures Increasing(Exclude(q, drop))
  {
    if q == [] {
    } else {
      var init := q[..|q| - 1];
      ExcludeIncreasing(init, drop);
      ExcludeMembers(init, drop);
      forall i | 0 <= i < |Exclude(init, drop)| ensures Exclude(init, drop)[i] < q[|q| - 1] {
        assert Exclude(init, drop)[i] in init;
      }
    }
  }

  lemma {:induction false} ExcludeCompose(q: seq<u32>, first: set<u32>, second: set<u32>)
    ensures Exclude(Exclude(q, first), second) == Exclude(q, first + second)
  {
    if q == [] {
    } else {
      ExcludeCompose(q[..|q| - 1], first, second);
      var rest := Exclude(q[..|q| - 1], first);
      assert (rest + [q[|q| - 1]])[..|rest|] == rest;
    }
  }

  lemma {:induction false} ExcludeAbsent(q: seq<u32>, drop: set<u32>)
    requires forall x <- q :: x !in drop
    ensures Exclude(q, drop) == q
  {
    if q == [] {
    } else {
      var last := q[|q| - 1];
      assert last in q;
      ExcludeAbsent(q[..|q| - 1], drop);
      assert q == q[..|q| - 1] + [q[|q| - 1]];
    }
  }

  lemma {:induction false} ExcludeAll(q: seq<u32>, drop: set<u32>)
    requires forall x <- q :: x in drop
    ensures Exclude(q, drop) == []
  {
    if q == [] {
    } else {
      var last := q[|q| - 1];
      assert last in q;
      ExcludeAll(q[..|q| - 1], drop);
    }
  }

  lemma {:induction false} ExcludeAppend(p: seq<u32>, q: seq<u32>, drop: set<u32>)
    ensures Exclude(p + q, drop) == Exclude(p, drop) + Exclude(q, drop)
  {
    if q == [] {
      assert p + q == p;
    } else {
      var init, last := q[..|q| - 1], q[|q| - 1];
      assert (p + q)[..|p + q| - 1] == p + init;
      ExcludeAppend(p, init, drop);
    }
  }

  /** Removing one id of an increasing list frees exactly one slot and keeps the order of the rest. */
  lemma ExcludeOne(q: seq<u32>, x: u32) returns (before: seq<u32>, after: seq<u32>)
    requires Increasing(q) && x in q
    ensures q == before + [x] + after
    ensures Exclude(q, {x}) == before + after
    ensures |Exclude(q, {x})| == |q| - 1
  {
    var k :| 0 <= k < |q| && q[k] == x;
    before, after := q[..k], q[k + 1..];
    assert q == before + [x] + after;
    ExcludeAppend(before + [x], after, {x});
    ExcludeAppend(before, [x], {x});
    ExcludeAll([x], {x});
    ExcludeAbsent(before, {x});
    ExcludeAbsent(after, {x});
  }

  /** An increasing list has as many entries as it has members. */
  lemma {:induction false} IncreasingCardinality(q: seq<u32>, members: set<u32>)
    requires Increasing(q)
    requires forall x :: x in q <==> x in members
    ensures |q| == |members|
  {
    if q == [] {
      assert forall x <- members :: x in q;
      assert members == {};
    } else {
      var last := q[|q| - 1];
      var init := q[..|q| - 1];
      assert q == init + [last];
      assert last in q && last !in init;
      IncreasingCardinality(init, members - {last});
    }
  }

  /** An increasing list is determined by its members. */
  lemma {:induction false} IncreasingUnique(p: seq<u32>, q: seq<u32>)
    requires Increasing(p) && Increasing(q)
    requires forall x :: x in p <==> x in q
    ensures p == q
  {
    var members := set x | x in p;
    IncreasingCardinality(p, members);
    IncreasingCardinality(q, members);
    if p != [] {
      var i, j := |p| - 1, |q| - 1;
      assert p[i] in p && q[j] in q;
      assert p[i] == q[j];
      assert p == p[..i] + [p[i]] && q == q[..j] + [q[j]];
      assert p[i] !in p[..i] && q[j] !in q[..j];
      forall x ensures x in p[..i] <==> x in q[..j] {
        assert x in p <==> x in p[..i] || x == p[i];
        assert x in q <==> x in q[..j] || x == q[j];
      }
      IncreasingUnique(p[..i], q[..j]);
    }
  }
}
