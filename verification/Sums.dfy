/** Sums over the values of a map, and sizes of sets. */
module Sums {

  lemma SubsetSize<T>(a: set<T>, b: set<T>)
    requires a <= b
    ensures |a| <= |b|
  {
    assert b == a + (b - a);
  }

  ghost function Sum<K>(m: map<K, int>): int {
    if m == map[] then 0 else var k :| k in m; m[k] + Sum(m - {k})
  }

  lemma {:induction false} SumWithout<K>(m: map<K, int>, k: K)
    requires k in m
    ensures Sum(m) == m[k] + Sum(m - {k})
    decreases |m|
  {
    var first :| first in m && Sum(m) == m[first] + Sum(m - {first});
    if first != k {
      SumWithout(m - {first}, k);
      SumWithout(m - {k}, first);
      assert m - {first} - {k} == m - {k} - {first};
    }
  }

  lemma SumInsert<K>(m: map<K, int>, k: K, v: int)
    requires k !in m
    ensures Sum(m[k := v]) == Sum(m) + v
  {
    SumWithout(m[k := v], k);
    assert m[k := v] - {k} == m;
  }

  function Lookup<K>(m: map<K, int>, k: K): int {
    if k in m then m[k] else 0
  }

  lemma SumAdd<K>(m: map<K, int>, k: K, d: int)
    ensures Sum(m[k := Lookup(m, k) + d]) == Sum(m) + d
  {
    var after := m[k := Lookup(m, k) + d];
    SumWithout(after, k);
    if k in m {
      SumWithout(m, k);
      assert after - {k} == m - {k};
    } else {
      assert after - {k} == m;
    }
  }
}
