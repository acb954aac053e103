/** Sums over the values of a map. */
module Sums {

  ghost function Sum<K(!new)>(m: map<K, nat>): nat
    decreases |m|
  {
    if m == map[] then 0
    else
      var k :| k in m;
      m[k] + Sum(m - {k})
  }

  lemma {:induction false} SumPoint<K(!new)>(m: map<K, nat>, k: K)
    requires k in m
    ensures Sum(m) == m[k] + Sum(m - {k})
    decreases |m|
  {
    var picked :| picked in m && Sum(m) == m[picked] + Sum(m - {picked});
    if picked != k {
      SumPoint(m - {picked}, k);
      SumPoint(m - {k}, picked);
      assert m - {picked} - {k} == m - {k} - {picked};
    }
  }

  lemma SumUpdate<K(!new)>(m: map<K, nat>, k: K, v: nat)
    ensures Sum(m[k := v]) + (if k in m then m[k] else 0) == Sum(m) + v
  {
    SumPoint(m[k := v], k);
    assert m[k := v] - {k} == m - {k};
    if k in m {
      SumPoint(m, k);
    } else {
      assert m - {k} == m;
    }
  }

  lemma {:induction false} SumOfZeros<K(!new)>(m: map<K, nat>)
    requires forall k | k in m :: m[k] == 0
    ensures Sum(m) == 0
    decreases |m|
  {
    if m != map[] {
      var k :| k in m;
      SumPoint(m, k);
      SumOfZeros(m - {k});
    }
  }
}
