/** Sums over finite maps, used wherever a quantity is spread over a keyed store. */
module Sums {

  ghost function SumBy<K(!new), V(!new)>(m: map<K, V>, f: V -> int): (total: int) {
    if m == map[] then 0
    else
      var k :| k in m;
      f(m[k]) + SumBy(m - {k}, f)
  }

  /** The sum does not depend on the order in which keys are taken out. */
  lemma {:induction false} SumSplit<K(!new), V(!new)>(m: map<K, V>, f: V -> int, k: K)
    requires k in m
    ensures SumBy(m, f) == f(m[k]) + SumBy(m - {k}, f)
    decreases |m|
  {
    var j :| j in m && SumBy(m, f) == f(m[j]) + SumBy(m - {j}, f);
    if j != k {
      SumSplit(m - {j}, f, k);
      SumSplit(m - {k}, f, j);
      assert m - {j} - {k} == m - {k} - {j};
    }
  }

  lemma {:induction false} SumInsert<K(!new), V(!new)>(m: map<K, V>, f: V -> int, k: K, v: V)
    requires k !in m
    ensures SumBy(m[k := v], f) == SumBy(m, f) + f(v)
  {
    SumSplit(m[k := v], f, k);
    assert m[k := v] - {k} == m;
  }

  lemma {:induction false} SumReplace<K(!new), V(!new)>(m: map<K, V>, f: V -> int, k: K, v: V)
    requires k in m
    ensures SumBy(m[k := v], f) == SumBy(m, f) - f(m[k]) + f(v)
  {
    SumSplit(m, f, k);
    SumSplit(m[k := v], f, k);
    assert m[k := v] - {k} == m - {k};
  }

  lemma {:induction false} UnionWithout<K(!new), V(!new)>(m: map<K, V>, n: map<K, V>, k: K)
    requires m.Keys !! n.Keys && k in n
    ensures (m + n) - {k} == m + (n - {k}) && k in m + n && (m + n)[k] == n[k]
  {
  }

  lemma {:induction false} SumUnion<K(!new), V(!new)>(m: map<K, V>, n: map<K, V>, f: V -> int)
    requires m.Keys !! n.Keys
    ensures SumBy(m + n, f) == SumBy(m, f) + SumBy(n, f)
    decreases |n|
  {
    if n == map[] {
      assert m + n == m;
    } else {
      var k :| k in n;
      SumUnion(m, n - {k}, f);
      UnionStep(m, n, f, k);
    }
  }

  lemma {:induction false} UnionStep<K(!new), V(!new)>(m: map<K, V>, n: map<K, V>, f: V -> int, k: K)
    requires m.Keys !! n.Keys && k in n
    ensures SumBy(n, f) == f(n[k]) + SumBy(n - {k}, f)
    ensures SumBy(m + n, f) == f(n[k]) + SumBy(m + (n - {k}), f)
  {
    hide SumBy;
    UnionWithout(m, n, k);
    SumSplit(n, f, k);
    SumSplit(m + n, f, k);
  }

  lemma {:induction false} SumNonNegative<K(!new), V(!new)>(m: map<K, V>, f: V -> int)
    requires forall k :: k in m ==> f(m[k]) >= 0
    ensures SumBy(m, f) >= 0
    ensures forall k :: k in m ==> f(m[k]) <= SumBy(m, f)
    decreases |m|
  {
    forall k | k in m ensures f(m[k]) <= SumBy(m, f) && SumBy(m, f) >= 0 {
      SumSplit(m, f, k);
      SumNonNegative(m - {k}, f);
    }
  }
}
