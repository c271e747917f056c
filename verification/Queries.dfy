/** Reading rows: findMany returns the matching rows in some order, findFirst one of them if there is any. */
module Queries {
  import opened Text

  /** rows lists each element of a set once. */
  ghost predicate Lists<T(!new)>(rows: seq<T>, ids: set<T>) {
    && (forall i, j :: 0 <= i < j < |rows| ==> rows[i] != rows[j])
    && (forall x :: x in rows <==> x in ids)
  }

  /** Every finite set of rows can be listed. */
  lemma {:induction false} SomeOrder<T(!new)>(ids: set<T>) returns (rows: seq<T>)
    ensures Lists(rows, ids)
    decreases |ids|
  {
    rows := [];
    if ids != {} {
      var id :| id in ids;
      rows := SomeOrder(ids - {id});
      rows := rows + [id];
    }
  }

  /** A listing is as long as the set is large. */
  lemma {:induction false} ListSize<T(!new)>(rows: seq<T>, ids: set<T>)
    requires Lists(rows, ids)
    ensures |rows| == |ids|
    decreases |rows|
  {
    if rows == [] {
      assert ids == {};
    } else {
      var front, last := rows[..|rows| - 1], rows[|rows| - 1];
      forall x
        ensures x in front <==> x in ids - {last}
      {
        if x in front {
          var i :| 0 <= i < |front| && front[i] == x;
          assert rows[i] == x;
        }
        if x in ids && x != last {
          var i :| 0 <= i < |rows| && rows[i] == x;
          assert front[i] == x;
        }
      }
      ListSize(front, ids - {last});
    }
  }

  method FindMany<T(==, !new)>(ids: set<T>) returns (rows: seq<T>)
    ensures Lists(rows, ids) && |rows| == |ids|
  {
    rows := [];
    var rest := ids;
    while rest != {}
      invariant rest <= ids
      invariant Lists(rows, ids - rest) && |rows| == |ids| - |rest|
      decreases |rest|
    {
      var id :| id in rest;
      rows := rows + [id];
      rest := rest - {id};
    }
    assert ids - rest == ids;
  }

  method FindFirst<T(==)>(ids: set<T>) returns (row: Option<T>)
    ensures row.None? <==> ids == {}
    ensures row.Some? ==> row.value in ids
  {
    if ids == {} {
      return None;
    }
    var id :| id in ids;
    return Some(id);
  }
}
