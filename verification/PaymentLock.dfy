/** The payment lock: one cache key for a set of due ids, whatever their order. */
module PaymentLock {
  import opened Text

  type DueIds = seq<int>

  // ------------------------------------------------------------------- sorting

  ghost predicate Ascending(xs: seq<int>) {
    forall i, j :: 0 <= i < j < |xs| ==> xs[i] <= xs[j]
  }

  function Insert(xs: seq<int>, v: int): (r: seq<int>)
    ensures |r| == |xs| + 1
  {
    if xs == [] || xs[|xs| - 1] <= v then xs + [v]
    else Insert(xs[..|xs| - 1], v) + [xs[|xs| - 1]]
  }

  lemma {:induction false} InsertAt(xs: seq<int>, v: int, j: nat)
    requires j <= |xs|
    requires j > 0 ==> xs[j - 1] <= v
    requires forall k :: j <= k < |xs| ==> xs[k] > v
    ensures Insert(xs, v) == xs[..j] + [v] + xs[j..]
  {
    if j < |xs| {
      InsertAt(xs[..|xs| - 1], v, j);
      assert xs[j..] == xs[..|xs| - 1][j..] + [xs[|xs| - 1]];
    }
  }

  /** dueIds.sort((a, b) => a - b) */
  function SortIds(xs: seq<int>): (r: seq<int>)
    ensures |r| == |xs|
  {
    if xs == [] then [] else Insert(SortIds(xs[..|xs| - 1]), xs[|xs| - 1])
  }

  lemma {:induction false} InsertSorts(xs: seq<int>, v: int)
    requires Ascending(xs)
    ensures Ascending(Insert(xs, v)) && multiset(Insert(xs, v)) == multiset(xs) + multiset{v}
  {
    hide Ascending;
    if xs == [] || xs[|xs| - 1] <= v {
      forall x | x in multiset(xs)
        ensures x <= v
      {
        LastIsGreatest(xs, x);
      }
      AppendGreatest(xs, v);
    } else {
      var front, last := xs[..|xs| - 1], xs[|xs| - 1];
      SplitLast(xs);
      InsertSorts(front, v);
      forall x | x in multiset(Insert(front, v))
        ensures x <= last
      {
        if x != v {
          LastIsGreatest(xs, x);
        }
      }
      AppendGreatest(Insert(front, v), last);
      InItself(xs);
    }
  }

  lemma AppendGreatest(xs: seq<int>, v: int)
    requires Ascending(xs) && forall x :: x in multiset(xs) ==> x <= v
    ensures Ascending(xs + [v]) && multiset(xs + [v]) == multiset(xs) + multiset{v}
  {
    forall i | 0 <= i < |xs|
      ensures xs[i] <= v
    {
      assert xs[i] in multiset(xs);
    }
  }

  /** The sorted list is ascending and holds the same ids. */
  lemma {:induction false} SortIdsSorts(xs: seq<int>)
    ensures Ascending(SortIds(xs)) && multiset(SortIds(xs)) == multiset(xs)
  {
    if xs != [] {
      SortIdsSorts(xs[..|xs| - 1]);
      InsertSorts(SortIds(xs[..|xs| - 1]), xs[|xs| - 1]);
      assert xs == xs[..|xs| - 1] + [xs[|xs| - 1]];
    }
  }

  /** There is only one ascending arrangement of the same ids. */
  lemma {:induction false} AscendingUnique(a: seq<int>, b: seq<int>)
    requires Ascending(a) && Ascending(b) && multiset(a) == multiset(b)
    ensures a == b
  {
    hide Ascending;
    assert |a| == |multiset(a)| == |multiset(b)| == |b|;
    if a != [] {
      var x, y := a[|a| - 1], b[|b| - 1];
      InItself(a);
      InItself(b);
      LastIsGreatest(a, y);
      LastIsGreatest(b, x);
      SplitLast(a);
      SplitLast(b);
      AscendingUnique(a[..|a| - 1], b[..|b| - 1]);
    }
  }

  lemma InItself(a: seq<int>)
    requires a != []
    ensures a[|a| - 1] in multiset(a)
  {
  }

  lemma LastIsGreatest(a: seq<int>, v: int)
    requires Ascending(a) && a != [] && v in multiset(a)
    ensures v <= a[|a| - 1]
  {
    var i :| 0 <= i < |a| && a[i] == v;
  }

  lemma SplitLast(a: seq<int>)
    requires a != []
    ensures multiset(a[..|a| - 1]) == multiset(a) - multiset{a[|a| - 1]}
    ensures a == a[..|a| - 1] + [a[|a| - 1]]
    ensures Ascending(a) ==> Ascending(a[..|a| - 1])
  {
    assert a == a[..|a| - 1] + [a[|a| - 1]];
  }

  // ----------------------------------------------------------------- lock key

  function Texts(ids: DueIds): (texts: seq<string>)
    ensures |texts| == |ids|
    ensures forall i :: 0 <= i < |ids| ==> texts[i] == IntText(ids[i])
  {
    seq(|ids|, i requires 0 <= i < |ids| => IntText(ids[i]))
  }

  function LockKey(dueIds: DueIds): string {
    "payment:lock:" + Join(Texts(SortIds(dueIds)), ':')
  }

  lemma IntTextInjective(a: int, b: int)
    requires IntText(a) == IntText(b)
    ensures a == b
  {
    var m, n := if a < 0 then -a else a, if b < 0 then -b else b;
    NumeralRoundTrip(m);
    NumeralRoundTrip(n);
    assert IsDigit(Numeral(m)[0]) && IsDigit(Numeral(n)[0]);
    if a < 0 {
      assert Numeral(m) == IntText(a)[1..];
    }
    if b < 0 {
      assert Numeral(n) == IntText(b)[1..];
    }
  }

  lemma NoSeparator(n: int)
    ensures ':' !in IntText(n) && IntText(n) != ""
  {
    var digits := Numeral(if n < 0 then -n else n);
    assert forall i :: 0 <= i < |digits| ==> IsDigit(digits[i]);
  }

  /** The joined decimals can be decoded, so equal texts come from equal lists. */
  lemma JoinedIdsDecode(a: DueIds, b: DueIds)
    requires Join(Texts(a), ':') == Join(Texts(b), ':')
    ensures a == b
  {
    forall n: int
      ensures ':' !in IntText(n) && IntText(n) != ""
    {
      NoSeparator(n);
    }
    if a == [] || b == [] {
      NonEmptyJoin(a);
      NonEmptyJoin(b);
    } else {
      SplitJoin(Texts(a), ':');
      SplitJoin(Texts(b), ':');
      assert Texts(a) == Texts(b);
      forall i | 0 <= i < |a|
        ensures a[i] == b[i]
      {
        IntTextInjective(a[i], b[i]);
      }
    }
  }

  lemma NonEmptyJoin(ids: DueIds)
    ensures Join(Texts(ids), ':') == "" <==> ids == []
  {
    if ids != [] {
      NoSeparator(ids[0]);
    }
  }

  /** Two lists of due ids share a lock key exactly when one is a permutation of the other. */
  lemma LockKeyCanonical(a: DueIds, b: DueIds)
    ensures LockKey(a) == LockKey(b) <==> multiset(a) == multiset(b)
  {
    SortIdsSorts(a);
    SortIdsSorts(b);
    var ja, jb := Join(Texts(SortIds(a)), ':'), Join(Texts(SortIds(b)), ':');
    if LockKey(a) == LockKey(b) {
      assert ja == LockKey(a)[|"payment:lock:"|..] && jb == LockKey(b)[|"payment:lock:"|..];
      JoinedIdsDecode(SortIds(a), SortIds(b));
    } else if multiset(a) == multiset(b) {
      AscendingUnique(SortIds(a), SortIds(b));
    }
  }

  // -------------------------------------------------------------------- cache

  /** Seconds after which a lock expires. */
  const LOCK_SECONDS := 840

  /** Keys of the cache with the instant, in seconds, at which each expires. */
  type Store = map<string, int>

  predicate Locked(store: Store, dueIds: DueIds, now: int) {
    var key := LockKey(dueIds);
    key in store && now < store[key]
  }

  class PaymentCache {
    var store: Store

    constructor ()
      ensures store == map[]
    {
      store := map[];
    }

    /** Sorts the caller's array in place, as Array.sort does, and builds the key from it. */
    static method GetLockKey(dueIds: array<int>) returns (key: string)
      modifies dueIds
      ensures dueIds[..] == SortIds(old(dueIds[..]))
      ensures Ascending(dueIds[..]) && multiset(dueIds[..]) == multiset(old(dueIds[..]))
      ensures key == LockKey(old(dueIds[..])) == "payment:lock:" + Join(Texts(dueIds[..]), ':')
    {
      ghost var ids := dueIds[..];
      var i := 0;
      while i < dueIds.Length
        invariant 0 <= i <= dueIds.Length
        invariant dueIds[..i] == SortIds(ids[..i])
        invariant dueIds[i..] == ids[i..]
      {
        assert ids[..i + 1][..i] == ids[..i];
        assert dueIds[i] == dueIds[i..][0] == ids[i];
        InsertInPlace(dueIds, i);
        assert ids[i..][1..] == ids[i + 1..];
        i := i + 1;
      }
      assert dueIds[..] == dueIds[..i] && ids[..i] == ids;
      SortIdsSorts(ids);
      key := "payment:lock:" + Join(Texts(dueIds[..]), ':');
    }

    /** Moves a[n] left past every larger element of a[..n]. */
    static method InsertInPlace(a: array<int>, n: nat)
      requires n < a.Length
      modifies a
      ensures a[..n + 1] == Insert(old(a[..n]), old(a[n]))
      ensures a[n + 1..] == old(a[n + 1..])
    {
      var v, j := a[n], n;
      ghost var front := a[..n];
      while j > 0 && a[j - 1] > v
        invariant 0 <= j <= n
        invariant a[..j] == front[..j]
        invariant a[j + 1..n + 1] == front[j..]
        invariant forall k :: j <= k < n ==> front[k] > v
        invariant a[n + 1..] == old(a[n + 1..])
      {
        assert a[j - 1] == front[j - 1];
        a[j] := a[j - 1];
        j := j - 1;
      }
      a[j] := v;
      InsertAt(front, v, j);
      assert j > 0 ==> front[j - 1] == a[j - 1];
      assert a[..n + 1] == a[..j] + [v] + a[j + 1..n + 1];
    }

    method LockPayment(dueIds: array<int>, now: int)
      modifies this, dueIds
      ensures store == old(store)[LockKey(old(dueIds[..])) := now + 840]
    {
      var key := GetLockKey(dueIds);
      store := store[key := now + LOCK_SECONDS];
    }

    method UnlockPayment(dueIds: array<int>)
      modifies this, dueIds
      ensures store == old(store) - {LockKey(old(dueIds[..]))}
    {
      var key := GetLockKey(dueIds);
      store := store - {key};
    }

    method IsPaymentLocked(dueIds: array<int>, now: int) returns (locked: bool)
      modifies dueIds
      ensures locked == Locked(store, old(dueIds[..]), now)
      ensures store == old(store)
    {
      var key := GetLockKey(dueIds);
      locked := key in store && now < store[key];
    }
  }

  /**
   Right after locking a list, exactly its permutations are newly locked, until the lock expires;
   every other list keeps its state. Unlocking any permutation frees exactly those lists again.
   */
  lemma LockCoversPermutations(store: Store, ids: DueIds, other: DueIds, lockedAt: int, now: int)
    ensures var after := store[LockKey(ids) := lockedAt + 840];
            Locked(after, other, now) <==> if multiset(other) == multiset(ids) then now < lockedAt + 840
                                           else Locked(store, other, now)
    ensures Locked(store - {LockKey(ids)}, other, now)
            <==> multiset(other) != multiset(ids) && Locked(store, other, now)
  {
    hide LockKey;
    LockKeyCanonical(ids, other);
  }
}
