/** Sizes of finite maps and sums over their values. */
module Sums {

  lemma {:induction false} MapSize<K, V>(m: map<K, V>, k: K, v: V)
    ensures |m[k := v]| == if k in m then |m| else |m| + 1
    ensures |m - {k}| == if k in m then |m| - 1 else |m|
  {
  }

  ghost function SumOf<K, V>(m: map<K, V>, weight: V -> nat): nat {
    if m == map[] then 0 else var k :| k in m; weight(m[k]) + SumOf(m - {k}, weight)
  }

  lemma {:induction false} SumWithout<K, V>(m: map<K, V>, weight: V -> nat, k: K)
    requires k in m
    ensures SumOf(m, weight) == weight(m[k]) + SumOf(m - {k}, weight)
    decreases |m|
  {
    var j :| j in m && SumOf(m, weight) == weight(m[j]) + SumOf(m - {j}, weight);
    if j != k {
      SumWithout(m - {j}, weight, k);
      SumWithout(m - {k}, weight, j);
      assert m - {j} - {k} == m - {k} - {j};
    }
  }

  lemma {:induction false} SumWith<K, V>(m: map<K, V>, weight: V -> nat, k: K, v: V)
    ensures SumOf(m[k := v], weight)
         == SumOf(m, weight) + weight(v) - if k in m then weight(m[k]) else 0
  {
    SumWithout(m[k := v], weight, k);
    assert m[k := v] - {k} == m - {k};
    if k in m {
      SumWithout(m, weight, k);
    } else {
      assert m - {k} == m;
    }
  }
}
