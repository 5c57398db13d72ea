/** Sums over finite maps, used for every conservation statement of the project. */
module MapSums {

  ghost function Sum<K>(m: map<K, int>): int {
    if m == map[] then 0
    else
      var k :| k in m;
      m[k] + Sum(m - {k})
  }

  /** The sum does not depend on the key that `Sum` happens to pick first. */
  lemma {:induction false} SumRemove<K>(m: map<K, int>, k: K)
    requires k in m
    ensures Sum(m) == m[k] + Sum(m - {k})
    decreases |m|
  {
    var p :| p in m && Sum(m) == m[p] + Sum(m - {p});
    if p != k {
      SumRemove(m - {p}, k);
      SumRemove(m - {k}, p);
      assert (m - {p}) - {k} == (m - {k}) - {p};
    }
  }

  lemma SumUpdate<K>(m: map<K, int>, k: K, v: int)
    ensures Sum(m[k := v]) == Sum(m) + v - (if k in m then m[k] else 0)
  {
    SumRemove(m[k := v], k);
    assert m[k := v] - {k} == m - {k};
    if k in m {
      SumRemove(m, k);
    } else {
      assert m - {k} == m;
    }
  }

  lemma {:induction false} SumAtLeast<K>(m: map<K, int>, least: nat)
    requires forall k :: k in m ==> m[k] >= least
    ensures Sum(m) >= least * |m|
    ensures Sum(m) >= 0
    decreases |m|
  {
    if m != map[] {
      var k :| k in m;
      SumRemove(m, k);
      SumAtLeast(m - {k}, least);
      assert |m - {k}| == |m| - 1;
      assert least * |m| == least * (|m| - 1) + least;
    }
  }

  /** Every single entry is bounded by the sum of non-negative entries. */
  lemma SumBoundsEntry<K>(m: map<K, int>, k: K)
    requires k in m
    requires forall j :: j in m ==> m[j] >= 0
    ensures m[k] <= Sum(m)
  {
    SumRemove(m, k);
    SumAtLeast(m - {k}, 0);
  }
}
