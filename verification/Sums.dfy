/** Sums over the values of a finite map: how often all records of a table together mention `e`. */
module Sums {

  ghost function Pick<K, V>(m: map<K, V>): (k: K)
    requires |m| != 0
    ensures k in m
  {
    var k :| k in m;
    k
  }

  /** The sum of `f(v, e)` over all entries of `m`. */
  ghost function Sum<K, V, E>(m: map<K, V>, f: (V, E) -> nat, e: E): nat
    decreases |m|
  {
    if |m| == 0 then 0
    else
      var k := Pick(m);
      f(m[k], e) + Sum(m - {k}, f, e)
  }

  lemma {:induction false} SumTake<K, V, E>(m: map<K, V>, k: K, f: (V, E) -> nat, e: E)
    requires k in m
    ensures Sum(m, f, e) == f(m[k], e) + Sum(m - {k}, f, e)
    decreases |m|
  {
    var j := Pick(m);
    if j != k {
      var r := m - {j} - {k};
      SumTake(m - {j}, k, f, e);
      SumTake(m - {k}, j, f, e);
      assert m - {k} - {j} == r;
    }
  }

  lemma SumNew<K, V, E(!new)>(m: map<K, V>, k: K, v: V, f: (V, E) -> nat)
    requires k !in m
    ensures forall e :: Sum(m[k := v], f, e) == Sum(m, f, e) + f(v, e)
  {
    forall e ensures Sum(m[k := v], f, e) == Sum(m, f, e) + f(v, e) {
      SumTake(m[k := v], k, f, e);
      assert m[k := v] - {k} == m;
    }
  }

  lemma SumDel<K, V, E(!new)>(m: map<K, V>, k: K, f: (V, E) -> nat)
    requires k in m
    ensures forall e :: Sum(m - {k}, f, e) == Sum(m, f, e) - f(m[k], e)
  {
    forall e ensures Sum(m - {k}, f, e) == Sum(m, f, e) - f(m[k], e) {
      SumTake(m, k, f, e);
    }
  }

  lemma SumUpdate<K, V, E(!new)>(m: map<K, V>, k: K, v: V, f: (V, E) -> nat)
    requires k in m
    ensures forall e :: Sum(m[k := v], f, e) == Sum(m, f, e) - f(m[k], e) + f(v, e)
  {
    forall e ensures Sum(m[k := v], f, e) == Sum(m, f, e) - f(m[k], e) + f(v, e) {
      SumTake(m, k, f, e);
      SumTake(m[k := v], k, f, e);
      assert m[k := v] - {k} == m - {k};
    }
  }

  /** A positive sum has a positive summand. */
  lemma {:induction false} SumWhere<K, V, E>(m: map<K, V>, f: (V, E) -> nat, e: E) returns (k: K)
    requires Sum(m, f, e) > 0
    ensures k in m && f(m[k], e) > 0
    decreases |m|
  {
    k := Pick(m);
    if f(m[k], e) == 0 {
      k := SumWhere(m - {k}, f, e);
    }
  }

  /** Two positive summands make a sum of two at least. */
  lemma SumBoth<K, V, E>(m: map<K, V>, j: K, k: K, f: (V, E) -> nat, e: E)
    requires j in m && k in m && j != k && f(m[j], e) > 0 && f(m[k], e) > 0
    ensures Sum(m, f, e) >= 2
  {
    SumTake(m, j, f, e);
    SumTake(m - {j}, k, f, e);
  }
}
