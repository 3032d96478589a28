/** Sums of the values of a finite map. */
module MapSums {

  ghost function Sum<K>(m: map<K, nat>): nat {
    if m == map[] then 0
    else
      var k :| k in m;
      m[k] + Sum(m - {k})
  }

  function Get<K(==)>(m: map<K, nat>, k: K): nat {
    if k in m then m[k] else 0
  }

  /** The sum does not depend on which key is taken out first. */
  lemma {:induction false} SumTakesOut<K>(m: map<K, nat>, k: K)
    requires k in m
    ensures Sum(m) == m[k] + Sum(m - {k})
    decreases |m|
  {
    var k0 :| k0 in m && Sum(m) == m[k0] + Sum(m - {k0});
    if k0 != k {
      SumTakesOut(m - {k0}, k);
      SumTakesOut(m - {k}, k0);
      assert m - {k0} - {k} == m - {k} - {k0};
    }
  }

  lemma SumUpdate<K>(m: map<K, nat>, k: K, v: nat)
    ensures Sum(m[k := v]) + Get(m, k) == Sum(m) + v
  {
    SumTakesOut(m[k := v], k);
    assert m[k := v] - {k} == m - {k};
    if k in m {
      SumTakesOut(m, k);
    } else {
      assert m - {k} == m;
    }
  }

  lemma TwoWithinSum<K>(m: map<K, nat>, k1: K, k2: K)
    requires k1 != k2
    ensures Get(m, k1) + Get(m, k2) <= Sum(m)
  {
    OneWithinSum(m, k1);
    OneWithinSum(m, k2);
    if k1 in m && k2 in m {
      SumTakesOut(m, k1);
      SumTakesOut(m - {k1}, k2);
    }
  }

  lemma OneWithinSum<K>(m: map<K, nat>, k: K)
    ensures Get(m, k) <= Sum(m)
  {
    if k in m {
      SumTakesOut(m, k);
    }
  }
}
