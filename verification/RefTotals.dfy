/**
 Multisets collected over every value of a map: what all owners of one kind
 (all objects, or all holders) refer to together.
 */
module RefTotals {

  /** Everything the values of `m` contribute, counted with multiplicity. */
  ghost function Total<K, V, T(!new)>(m: map<K, V>, f: V -> multiset<T>): multiset<T>
    decreases |m|
  {
    if m == map[] then multiset{}
    else
      var k :| k in m;
      assert (m - {k}).Keys == m.Keys - {k};
      f(m[k]) + Total(m - {k}, f)
  }

  /** The total does not depend on which key the definition picks first. */
  lemma {:induction false} TotalSplit<K, V, T(!new)>(m: map<K, V>, f: V -> multiset<T>, k: K)
    requires k in m
    ensures Total(m, f) == f(m[k]) + Total(m - {k}, f)
    decreases |m|
  {
    var first :| first in m && Total(m, f) == f(m[first]) + Total(m - {first}, f);
    if first != k {
      assert (m - {first}).Keys == m.Keys - {first} && (m - {k}).Keys == m.Keys - {k};
      TotalSplit(m - {first}, f, k);
      TotalSplit(m - {k}, f, first);
      assert m - {first} - {k} == m - {k} - {first};
    }
  }

  lemma {:induction false} TotalInsert<K, V, T(!new)>(m: map<K, V>, f: V -> multiset<T>, k: K, v: V)
    requires k !in m
    ensures forall x :: Total(m[k := v], f)[x] == f(v)[x] + Total(m, f)[x]
  {
    TotalSplit(m[k := v], f, k);
    assert m[k := v] - {k} == m;
  }

  /** Replacing one value changes the total by the difference of its contributions. */
  lemma {:induction false} TotalUpdate<K, V, T(!new)>(m: map<K, V>, f: V -> multiset<T>, k: K, v: V)
    requires k in m
    ensures forall x :: Total(m[k := v], f)[x] + f(m[k])[x] == Total(m, f)[x] + f(v)[x]
    ensures forall x :: f(m[k])[x] <= Total(m, f)[x]
  {
    TotalSplit(m, f, k);
    TotalSplit(m[k := v], f, k);
    assert m[k := v] - {k} == m - {k};
  }

  /** Whatever is in the total is contributed by some value. */
  lemma {:induction false} TotalWitness<K, V, T(!new)>(m: map<K, V>, f: V -> multiset<T>, x: T) returns (k: K)
    requires x in Total(m, f)
    ensures k in m && x in f(m[k])
    decreases |m|
  {
    k :| k in m && Total(m, f) == f(m[k]) + Total(m - {k}, f);
    if x !in f(m[k]) {
      assert (m - {k}).Keys == m.Keys - {k};
      k := TotalWitness(m - {k}, f, x);
    }
  }
}
