/** Totals over finite maps and sequences. */
module Sums {
  /** The sum of all values of a finite map. */
  ghost function Total<K>(m: map<K, real>): real {
    if m == map[] then 0.0
    else
      var k :| k in m;
      m[k] + Total(m - {k})
  }

  lemma EmptyTotal<K>()
    ensures Total<K>(map[]) == 0.0
  {
  }

  /** The order in which the values are added does not matter. */
  lemma {:induction false} TotalRemove<K>(m: map<K, real>, k: K)
    requires k in m
    ensures Total(m) == m[k] + Total(m - {k})
    decreases |m|
  {
    var c :| c in m && Total(m) == m[c] + Total(m - {c});
    if c != k {
      TotalRemove(m - {c}, k);
      TotalRemove(m - {k}, c);
      assert m - {c} - {k} == m - {k} - {c};
    }
  }

  lemma TotalInsert<K>(m: map<K, real>, k: K, v: real)
    requires k !in m
    ensures Total(m[k := v]) == Total(m) + v
  {
    TotalRemove(m[k := v], k);
    assert m[k := v] - {k} == m;
  }

  lemma TotalUpdate<K>(m: map<K, real>, k: K, v: real)
    requires k in m
    ensures Total(m[k := v]) == Total(m) - m[k] + v
  {
    TotalRemove(m, k);
    TotalRemove(m[k := v], k);
    assert m[k := v] - {k} == m - {k};
  }

  /** The part of a map whose keys lie in a set. */
  function Restrict<K, V>(m: map<K, V>, keys: set<K>): map<K, V> {
    map k | k in m && k in keys :: m[k]
  }

  /** A total splits along any set of keys. */
  lemma {:induction false} TotalSplit<K>(m: map<K, real>, keys: set<K>)
    ensures Total(m) == Total(Restrict(m, keys)) + Total(m - keys)
    decreases |m|
  {
    if m == map[] {
      assert Restrict(m, keys) == map[];
      assert m - keys == map[];
    } else {
      var k :| k in m;
      TotalSplit(m - {k}, keys);
      TotalRemove(m, k);
      if k in keys {
        TotalRemove(Restrict(m, keys), k);
        assert Restrict(m, keys) - {k} == Restrict(m - {k}, keys);
        assert m - keys == m - {k} - keys;
      } else {
        TotalRemove(m - keys, k);
        assert Restrict(m, keys) == Restrict(m - {k}, keys);
        assert m - keys - {k} == m - {k} - keys;
      }
    }
  }

  lemma {:induction false} TotalNonNegative<K>(m: map<K, real>)
    requires forall k :: k in m ==> m[k] >= 0.0
    ensures Total(m) >= 0.0
    decreases |m|
  {
    if m != map[] {
      var k :| k in m;
      TotalRemove(m, k);
      TotalNonNegative(m - {k});
    }
  }

  lemma {:induction false} TotalPositive<K>(m: map<K, real>)
    requires m != map[]
    requires forall k :: k in m ==> m[k] > 0.0
    ensures Total(m) > 0.0
  {
    var k :| k in m;
    TotalRemove(m, k);
    TotalNonNegative(m - {k});
  }

  predicate Distinct<T(==)>(xs: seq<T>) {
    forall i, j :: 0 <= i < j < |xs| ==> xs[i] != xs[j]
  }

  ghost function Elements<T>(xs: seq<T>): set<T> {
    set x | x in xs
  }
}
