/** Sums over the rows of a table. */
module Sums {

  /** The sum of `w` over all rows of `m`. */
  ghost function SumBy<K, V>(m: map<K, V>, w: V -> int): int
    decreases |m|
  {
    if m == map[] then 0
    else
      var k :| k in m;
      w(m[k]) + SumBy(m - {k}, w)
  }

  function Same(x: int): int { x }

  lemma {:induction false} SumByRemove<K, V>(m: map<K, V>, k: K, w: V -> int)
    requires k in m
    ensures SumBy(m, w) == w(m[k]) + SumBy(m - {k}, w)
    decreases |m|
  {
    var p :| p in m && SumBy(m, w) == w(m[p]) + SumBy(m - {p}, w);
    if p != k {
      var n, q := m - {p}, m - {k};
      SumByRemove(n, k, w);
      SumByRemove(q, p, w);
      assert n - {k} == q - {p};
    }
  }

  /** Writing one row changes the sum by the difference of its weights. */
  lemma SumByPut<K, V>(m: map<K, V>, k: K, v: V, w: V -> int)
    ensures SumBy(m[k := v], w) == SumBy(m, w) - (if k in m then w(m[k]) else 0) + w(v)
  {
    var n := m[k := v];
    SumByRemove(n, k, w);
    if k in m {
      SumByRemove(m, k, w);
      assert n - {k} == m - {k};
    } else {
      assert n - {k} == m;
    }
  }

  lemma {:induction false} SumByNonNegative<K, V>(m: map<K, V>, w: V -> int)
    requires forall k :: k in m ==> w(m[k]) >= 0
    ensures SumBy(m, w) >= 0
    decreases |m|
  {
    if m != map[] {
      var k :| k in m && SumBy(m, w) == w(m[k]) + SumBy(m - {k}, w);
      SumByNonNegative(m - {k}, w);
    }
  }

  /** Two weights that agree on every row give the same sum. */
  lemma {:induction false} SumByAgree<K, V>(m: map<K, V>, v: V -> int, w: V -> int)
    requires forall k :: k in m ==> v(m[k]) == w(m[k])
    ensures SumBy(m, v) == SumBy(m, w)
    decreases |m|
  {
    if m != map[] {
      var k :| k in m && SumBy(m, v) == v(m[k]) + SumBy(m - {k}, v);
      SumByRemove(m, k, w);
      SumByAgree(m - {k}, v, w);
    }
  }
}
