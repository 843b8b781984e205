/**
 Finite sums over map columns: the meaning of SQL's SUM and COUNT over the rows
 that a WHERE clause selects. A query is first written as a map from row key to
 the summed value, so a single-row change is a single-key change of that map.
 */
module Totals {

  datatype Option<+T> = None | Some(value: T)

  ghost function Pick<K>(m: map<K, int>): (k: K)
    requires m != map[]
    ensures k in m
  {
    var k :| k in m; k
  }

  ghost function Sum<K>(m: map<K, int>): int
    decreases |m|
  {
    if m == map[] then 0
    else var k := Pick(m); m[k] + Sum(m - {k})
  }

  /** The value a key contributes: its value when selected, nothing otherwise. */
  ghost function At<K>(m: map<K, int>, k: K): int {
    if k in m then m[k] else 0
  }

  lemma {:induction false} SumRemove<K>(m: map<K, int>, k: K)
    requires k in m
    ensures Sum(m) == m[k] + Sum(m - {k})
    decreases |m|
  {
    var p := Pick(m);
    if p != k {
      assert m - {p} - {k} == m - {k} - {p};
      SumRemove(m - {p}, k);
      SumRemove(m - {k}, p);
    }
  }

  /** Changing the column at one key changes the sum by exactly that key's difference. */
  lemma SumChange<K(!new)>(m: map<K, int>, n: map<K, int>, k: K)
    requires forall x :: x != k ==> (x in m <==> x in n)
    requires forall x :: x != k && x in m ==> m[x] == n[x]
    ensures Sum(n) - At(n, k) == Sum(m) - At(m, k)
  {
    assert m - {k} == n - {k};
    if k in m { SumRemove(m, k); } else { assert m - {k} == m; }
    if k in n { SumRemove(n, k); } else { assert n - {k} == n; }
  }

  /** Dropping rows or lowering non-negative values never raises the sum. */
  lemma {:induction false} SumShrinks<K(!new)>(m: map<K, int>, n: map<K, int>)
    requires forall x :: x in m ==> 0 <= m[x]
    requires forall x :: x in n ==> x in m && n[x] <= m[x]
    ensures Sum(n) <= Sum(m)
    decreases |m|
  {
    if m == map[] {
      assert n == map[];
    } else {
      var k := Pick(m);
      SumShrinks(m - {k}, n - {k});
      if k in n { SumRemove(n, k); } else { assert n - {k} == n; }
    }
  }

  lemma {:induction false} SumIsNonNegative<K(!new)>(m: map<K, int>)
    requires forall x :: x in m ==> 0 <= m[x]
    ensures 0 <= Sum(m)
  {
    SumShrinks(m, map[]);
  }

  /** A column split in two parts sums part by part. */
  lemma {:induction false} SumSplits<K(!new)>(m: map<K, int>, part: set<K>)
    ensures Sum(m) == Sum(map k | k in m && k in part :: m[k]) + Sum(m - part)
    decreases |m|
  {
    var inside := map k | k in m && k in part :: m[k];
    if m == map[] {
      assert inside == map[] && m - part == map[];
    } else {
      var p := Pick(m);
      SumSplits(m - {p}, part);
      var rest := map k | k in m - {p} && k in part :: (m - {p})[k];
      if p in part {
        SumRemove(inside, p);
        assert inside - {p} == rest;
        assert (m - {p}) - part == m - part;
      } else {
        SumRemove(m - part, p);
        assert inside == rest;
        assert (m - part) - {p} == (m - {p}) - part;
      }
    }
  }

  /** Evaluates a SUM by visiting every selected row once, in any order. */
  method SumColumn<K(!new,==)>(m: map<K, int>) returns (total: int)
    ensures total == Sum(m)
  {
    total := 0;
    var rest := m;
    while rest != map[]
      invariant total + Sum(rest) == Sum(m)
      decreases |rest|
    {
      var k :| k in rest;
      SumRemove(rest, k);
      total := total + rest[k];
      rest := rest - {k};
    }
  }
}
