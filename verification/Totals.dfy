/** Order-independent totals over the entries of a map. */
module Totals {

  /** The sum of a charge over all entries. */
  ghost function Sum<K(!new), V(!new)>(m: map<K, V>, charge: V -> int): int {
    if m == map[] then 0
    else
      var k :| k in m;
      charge(m[k]) + Sum(m - {k}, charge)
  }

  lemma {:induction false} SumSplit<K(!new), V(!new)>(m: map<K, V>, charge: V -> int, k: K)
    requires k in m
    ensures Sum(m, charge) == charge(m[k]) + Sum(m - {k}, charge)
    decreases |m|
  {
    var j :| j in m && Sum(m, charge) == charge(m[j]) + Sum(m - {j}, charge);
    if j != k {
      SumSplit(m - {j}, charge, k);
      SumSplit(m - {k}, charge, j);
      assert m - {j} - {k} == m - {k} - {j};
    }
  }

  lemma SumUpdate<K(!new), V(!new)>(m: map<K, V>, charge: V -> int, k: K, v: V)
    ensures Sum(m[k := v], charge) == charge(v) + Sum(m - {k}, charge)
  {
    SumSplit(m[k := v], charge, k);
    assert m[k := v] - {k} == m - {k};
  }

  lemma {:induction false} SumNonNegative<K(!new), V(!new)>(m: map<K, V>, charge: V -> int)
    requires forall k <- m :: charge(m[k]) >= 0
    ensures Sum(m, charge) >= 0
    decreases |m|
  {
    if m != map[] {
      var k :| k in m && Sum(m, charge) == charge(m[k]) + Sum(m - {k}, charge);
      SumNonNegative(m - {k}, charge);
    }
  }

  /** The multiset union of what every entry holds. */
  ghost function Union<K(!new), V(!new), L(!new)>(m: map<K, V>, held: V -> multiset<L>): multiset<L> {
    if m == map[] then multiset{}
    else
      var k :| k in m;
      held(m[k]) + Union(m - {k}, held)
  }

  lemma {:induction false} UnionSplit<K(!new), V(!new), L(!new)>(m: map<K, V>, held: V -> multiset<L>, k: K)
    requires k in m
    ensures Union(m, held) == held(m[k]) + Union(m - {k}, held)
    decreases |m|
  {
    var j :| j in m && Union(m, held) == held(m[j]) + Union(m - {j}, held);
    if j != k {
      UnionSplit(m - {j}, held, k);
      UnionSplit(m - {k}, held, j);
      assert m - {j} - {k} == m - {k} - {j};
    }
  }

  lemma UnionUpdate<K(!new), V(!new), L(!new)>(m: map<K, V>, held: V -> multiset<L>, k: K, v: V)
    ensures Union(m[k := v], held) == held(v) + Union(m - {k}, held)
    ensures k in m ==> Union(m, held) == held(m[k]) + Union(m - {k}, held)
    ensures k !in m ==> m - {k} == m
  {
    UnionSplit(m[k := v], held, k);
    assert m[k := v] - {k} == m - {k};
    if k in m { UnionSplit(m, held, k); }
  }
}
