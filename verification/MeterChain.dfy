/** The meters: each month continues the one before, so that the consumed units telescope. */
module MeterChain {
  import Calendar
  import opened DueRules
  import opened ElectricityProofs
  import opened ElectricityRules
  import opened Invariants
  import opened PaymentProofs
  import opened PaymentRules
  import Safety
  import opened System
  import opened Tables
  import opened TenancyProofs
  import opened TenancyRules
  import opened Text

  // -------------------------------------------------------------------- months

  /** Months counted through, so that December is followed by January of the next year. */
  function MonthAt(i: int): Month {
    Month(i % 12 + 1, i / 12)
  }

  function MonthIndex(m: Month): int {
    12 * m.year + m.month - 1
  }

  lemma MonthIndexing(i: int, m: Month)
    ensures MonthIndex(MonthAt(i)) == i
    ensures 1 <= m.month <= 12 ==> MonthAt(MonthIndex(m)) == m
    ensures PreviousMonth(MonthAt(i)) == MonthAt(i - 1)
  {
    if i % 12 == 0 {
      assert (i - 1) % 12 == 11 && (i - 1) / 12 == i / 12 - 1;
    } else {
      assert (i - 1) % 12 == i % 12 - 1 && (i - 1) / 12 == i / 12;
    }
  }

  // ------------------------------------------------------------ the series of one meter

  /** A stored reading of one meter, main or room. */
  datatype Row = Row(previous: real, current: real, units: real)

  type Series = map<Month, Row>

  /** The month continues the month before. */
  ghost predicate Linked(x: Series, i: int) {
    MonthAt(i) in x && MonthAt(i - 1) in x && x[MonthAt(i)].previous == x[MonthAt(i - 1)].current
  }

  ghost predicate HasMonth(x: Series, i: int) {
    MonthAt(i) in x && x[MonthAt(i)].units == x[MonthAt(i)].current - x[MonthAt(i)].previous
  }

  /** Readings for exactly the months first to last, each continuing the one before. */
  ghost predicate SeriesOk(x: Series, first: int, last: int) {
    && first <= last
    && (forall i :: first <= i <= last ==> HasMonth(x, i))
    && (forall i :: i < first || last < i ==> MonthAt(i) !in x)
    && (forall i :: first < i <= last ==> Linked(x, i))
  }

  ghost function UnitsSum(x: Series, first: int, last: int): real
    requires forall i :: first <= i <= last ==> HasMonth(x, i)
    decreases last - first
  {
    if last < first then 0.0
    else
      assert HasMonth(x, last);
      UnitsSum(x, first, last - 1) + x[MonthAt(last)].units
  }

  /** A series telescopes: all consumed units together are the last reading minus the first. */
  lemma {:induction false} SeriesTelescopes(x: Series, first: int, last: int, end: int)
    requires SeriesOk(x, first, end) && first <= last <= end
    ensures HasMonth(x, first) && HasMonth(x, last)
    ensures UnitsSum(x, first, last) == x[MonthAt(last)].current - x[MonthAt(first)].previous
    decreases last - first
  {
    assert HasMonth(x, last);
    if first < last {
      SeriesTelescopes(x, first, last - 1, end);
      assert Linked(x, last);
    } else {
      assert UnitsSum(x, first, last - 1) == 0.0;
    }
  }

  lemma DistinctMonths(i: int, j: int)
    requires i != j
    ensures MonthAt(i) != MonthAt(j)
  {
    MonthIndexing(i, MonthAt(i));
    MonthIndexing(j, MonthAt(j));
  }

  function Earlier(a: int, b: int): int {
    if a < b then a else b
  }

  function Later(a: int, b: int): int {
    if a < b then b else a
  }

  /**
   Writing one more month, or one again: the series stays unbroken exactly when the month touches it and the month
   after, if there is one, continues the new reading.
   */
  lemma SeriesJoined(x: Series, first: int, last: int, m: int, row: Row)
    requires SeriesOk(x, first, last) && row.units == row.current - row.previous
    requires MonthAt(m) in x ==> row.previous == x[MonthAt(m)].previous
    requires MonthAt(m) !in x && MonthAt(m - 1) in x ==> row.previous == x[MonthAt(m - 1)].current
    ensures SeriesOk(x[MonthAt(m) := row], Earlier(first, m), Later(last, m))
            <==> (MonthAt(m) in x || MonthAt(m - 1) in x || MonthAt(m + 1) in x)
                 && (MonthAt(m + 1) in x ==> row.current == x[MonthAt(m + 1)].previous)
  {
    hide MonthAt, SeriesOk;
    SeriesMonths(x, first, last);
    if first - 1 <= m <= last + 1 {
      if m + 1 < first || last < m + 1 || row.current == x[MonthAt(m + 1)].previous {
        SeriesStays(x, first, last, m, row);
      } else {
        SeriesBreaks(x, first, last, m, row);
      }
    } else {
      SeriesGap(x, first, last, m, row);
    }
  }

  lemma SeriesMonths(x: Series, first: int, last: int)
    requires SeriesOk(x, first, last)
    ensures first <= last && forall i :: MonthAt(i) in x <==> first <= i <= last
  {
    hide MonthAt;
    forall i | first <= i <= last
      ensures MonthAt(i) in x
    {
      assert HasMonth(x, i);
    }
  }

  lemma SeriesStays(x: Series, first: int, last: int, m: int, row: Row)
    requires SeriesOk(x, first, last) && first - 1 <= m <= last + 1
    requires row.units == row.current - row.previous
    requires first <= m <= last && MonthAt(m) in x ==> row.previous == x[MonthAt(m)].previous
    requires m == last + 1 && MonthAt(last) in x ==> row.previous == x[MonthAt(last)].current
    requires first <= m + 1 <= last && MonthAt(m + 1) in x ==> row.current == x[MonthAt(m + 1)].previous
    ensures SeriesOk(x[MonthAt(m) := row], Earlier(first, m), Later(last, m))
  {
    hide MonthAt;
    var x' := x[MonthAt(m) := row];
    var f, l := Earlier(first, m), Later(last, m);
    forall i: int
      ensures i != m ==> (MonthAt(i) in x' <==> MonthAt(i) in x)
      ensures i != m && MonthAt(i) in x ==> x'[MonthAt(i)] == x[MonthAt(i)]
    {
      if i != m {
        DistinctMonths(i, m);
      }
    }
    forall i | f <= i <= l
      ensures HasMonth(x', i)
    {
      if i != m {
        assert HasMonth(x, i);
      }
    }
    forall i | f < i <= l
      ensures Linked(x', i)
    {
      assert HasMonth(x', i) && HasMonth(x', i - 1);
      if first < i <= last {
        assert Linked(x, i);
      }
      if i == last + 1 {
        assert HasMonth(x, last);
      }
      if i == m + 1 && i <= last {
        assert HasMonth(x, i);
      }
    }
  }

  lemma SeriesBreaks(x: Series, first: int, last: int, m: int, row: Row)
    requires SeriesOk(x, first, last) && first - 1 <= m < last
    requires MonthAt(m + 1) in x && row.current != x[MonthAt(m + 1)].previous
    ensures !SeriesOk(x[MonthAt(m) := row], Earlier(first, m), Later(last, m))
  {
    hide MonthAt;
    DistinctMonths(m + 1, m);
    assert m + 1 - 1 == m;
    assert !Linked(x[MonthAt(m) := row], m + 1);
  }

  lemma SeriesGap(x: Series, first: int, last: int, m: int, row: Row)
    requires SeriesOk(x, first, last) && (m < first - 1 || last + 1 < m)
    ensures !SeriesOk(x[MonthAt(m) := row], Earlier(first, m), Later(last, m))
  {
    hide MonthAt;
    var hole := if m < first then m + 1 else m - 1;
    DistinctMonths(hole, m);
    assert !HasMonth(x[MonthAt(m) := row], hole);
  }

  lemma SeriesStarts(x: Series, m: int, row: Row)
    requires x == map[] && row.units == row.current - row.previous
    ensures SeriesOk(x[MonthAt(m) := row], m, m)
  {
    hide MonthAt;
    forall i | i < m || m < i
      ensures MonthAt(i) !in x[MonthAt(m) := row]
    {
      DistinctMonths(i, m);
    }
  }

  // ----------------------------------------------------------- the meters of a property

  function MainSeries(s: State, p: Id): Series {
    map m | m in (set k | k in s.mainReadings && k.0 == p :: k.1) ::
      Row(s.mainReadings[(p, m)].previous, s.mainReadings[(p, m)].current, s.mainReadings[(p, m)].unitConsumed)
  }

  function RoomSeries(s: State, room: Id): Series {
    map m | m in (set k | k in s.roomReadings && k.0 == room :: k.1) ::
      Row(s.roomReadings[(room, m)].previous, s.roomReadings[(room, m)].current, s.roomReadings[(room, m)].unitConsumed)
  }

  lemma MainSeriesAt(s: State, p: Id, m: Month)
    ensures m in MainSeries(s, p) <==> (p, m) in s.mainReadings
    ensures m in MainSeries(s, p) ==>
              MainSeries(s, p)[m] == Row(s.mainReadings[(p, m)].previous, s.mainReadings[(p, m)].current,
                  s.mainReadings[(p, m)].unitConsumed)
  {
    if (p, m) in s.mainReadings {
      assert (p, m).1 == m;
    }
  }

  lemma RoomSeriesAt(s: State, room: Id, m: Month)
    ensures m in RoomSeries(s, room) <==> (room, m) in s.roomReadings
    ensures m in RoomSeries(s, room) ==>
              RoomSeries(s, room)[m] == Row(s.roomReadings[(room, m)].previous, s.roomReadings[(room, m)].current,
                  s.roomReadings[(room, m)].unitConsumed)
  {
    if (room, m) in s.roomReadings {
      assert (room, m).1 == m;
    }
  }

  /** The main meter and every metered room of the property have a reading series over the same months. */
  ghost predicate ChainOk(s: State, p: Id, first: int, last: int) {
    && SeriesOk(MainSeries(s, p), first, last)
    && forall r :: r in MeteredRooms(s, p) ==> SeriesOk(RoomSeries(s, r), first, last)
  }

  /** The units that the main meter consumed in all months are its last reading minus its first. */
  lemma MainMeterTelescopes(s: State, p: Id, first: int, last: int)
    requires ChainOk(s, p, first, last)
    ensures (p, MonthAt(first)) in s.mainReadings && (p, MonthAt(last)) in s.mainReadings
    ensures UnitsSum(MainSeries(s, p), first, last)
            == s.mainReadings[(p, MonthAt(last))].current - s.mainReadings[(p, MonthAt(first))].previous
  {
    hide MainSeries, MeteredRooms, MonthAt, UnitsSum;
    SeriesTelescopes(MainSeries(s, p), first, last, last);
    MainSeriesAt(s, p, MonthAt(first));
    MainSeriesAt(s, p, MonthAt(last));
  }

  /** So do the units of every metered room. */
  lemma RoomMeterTelescopes(s: State, p: Id, first: int, last: int, room: Id)
    requires ChainOk(s, p, first, last) && room in MeteredRooms(s, p)
    ensures SeriesOk(RoomSeries(s, room), first, last)
    ensures (room, MonthAt(first)) in s.roomReadings && (room, MonthAt(last)) in s.roomReadings
    ensures UnitsSum(RoomSeries(s, room), first, last)
            == s.roomReadings[(room, MonthAt(last))].current - s.roomReadings[(room, MonthAt(first))].previous
  {
    hide MainSeries, RoomSeries, MeteredRooms, MonthAt, UnitsSum;
    SeriesTelescopes(RoomSeries(s, room), first, last, last);
    RoomSeriesAt(s, room, MonthAt(first));
    RoomSeriesAt(s, room, MonthAt(last));
  }

  // -------------------------------------------------------- one submission, one month

  lemma {:induction false} StoredPrevious(readings: map<(Id, Month), RoomReading>, p: Id, month: Month,
          rooms: seq<RoomSubmission>, r: Id, expected: real)
    requires r in SubmittedRooms(rooms)
    requires forall i :: 0 <= i < |rooms| && rooms[i].roomId == r ==> rooms[i].previous == expected
    ensures (r, month) in StoreRooms(readings, p, month, rooms)
    ensures StoreRooms(readings, p, month, rooms)[(r, month)].previous == expected
  {
    var front, last := rooms[..|rooms| - 1], rooms[|rooms| - 1];
    if last.roomId != r {
      SubmittedStep(rooms);
      StoredPrevious(readings, p, month, front, r, expected);
    }
  }

  /** What an accepted submission stores as previous readings is what the database expected. */
  lemma SubmissionContinues(s: State, p: Id, x: Submission, now: Month)
    requires AcceptsReadings(s, p, x, now)
    ensures StoreReadings(s, p, x).mainReadings[(p, x.month)].previous == ExpectedMain(s, p, x.month)
    ensures forall r :: r in MeteredRooms(s, p) ==>
              && (r, x.month) in StoreReadings(s, p, x).roomReadings
              && StoreReadings(s, p, x).roomReadings[(r, x.month)].previous == ExpectedRoom(s, p, r, x.month)
  {
    hide RoomUnits, StoreRooms, ExpectedRoom;
    forall r | r in MeteredRooms(s, p)
      ensures (r, x.month) in StoreReadings(s, p, x).roomReadings
      ensures StoreReadings(s, p, x).roomReadings[(r, x.month)].previous == ExpectedRoom(s, p, r, x.month)
    {
      forall i | 0 <= i < |x.rooms| && x.rooms[i].roomId == r
        ensures x.rooms[i].previous == ExpectedRoom(s, p, r, x.month)
      {
        assert Continues(s, p, x.month, x.rooms[i]);
      }
      StoredPrevious(s.roomReadings, p, x.month, x.rooms, r, ExpectedRoom(s, p, r, x.month));
    }
  }

  /** A submission touches only its own month and the metered rooms of its own property. */
  lemma SubmissionScope(s: State, p: Id, x: Submission, now: Month)
    requires AcceptsReadings(s, p, x, now)
    ensures var s' := StoreReadings(s, p, x);
            && s'.rooms == s.rooms
            && s'.mainReadings == s.mainReadings[(p, x.month) := MainReading(x.mainPrevious, x.mainCurrent,
                x.mainCurrent - x.mainPrevious, x.unitPrice)]
            && (forall k :: k in s'.roomReadings <==>
                  k in s.roomReadings || (k.1 == x.month && k.0 in MeteredRooms(s, p)))
            && (forall k :: k in s.roomReadings && !(k.1 == x.month && k.0 in MeteredRooms(s, p)) ==>
                s'.roomReadings[k] == s.roomReadings[k])
            && (forall r :: r in MeteredRooms(s, p) ==>
                  s'.roomReadings[(r, x.month)].unitConsumed
                      == s'.roomReadings[(r, x.month)].current - s'.roomReadings[(r, x.month)].previous)
  {
    hide RoomUnits, StoreRooms;
    AcceptedRoomsGoForward(s, p, x, now);
    StoreRoomsAt(s.roomReadings, p, x.month, x.rooms);
  }

  /** The main series gains or replaces exactly the submitted month. */
  lemma MainSeriesAfter(s: State, p: Id, x: Submission, now: Month)
    requires AcceptsReadings(s, p, x, now)
    ensures MainSeries(StoreReadings(s, p, x), p)
            == MainSeries(s, p)[x.month := Row(x.mainPrevious, x.mainCurrent, x.mainCurrent - x.mainPrevious)]
    ensures forall q :: q != p ==> MainSeries(StoreReadings(s, p, x), q) == MainSeries(s, q)
  {
    hide MainSeries, StoreReadings, AcceptsReadings;
    SubmissionScope(s, p, x, now);
    var s' := StoreReadings(s, p, x);
    forall q, m: Month
      ensures m in MainSeries(s', q) <==> m in MainSeries(s, q) || (q == p && m == x.month)
      ensures m in MainSeries(s, q) && (q, m) != (p, x.month) ==> MainSeries(s', q)[m] == MainSeries(s, q)[m]
    {
      MainSeriesAt(s, q, m);
      MainSeriesAt(s', q, m);
    }
    MainSeriesAt(s', p, x.month);
    forall q | q != p
      ensures MainSeries(s', q) == MainSeries(s, q)
    {
    }
  }

  /** A metered room's series gains or replaces exactly the submitted month; other rooms are untouched. */
  lemma RoomSeriesAfter(s: State, p: Id, x: Submission, now: Month, r: Id)
    requires AcceptsReadings(s, p, x, now)
    ensures r !in MeteredRooms(s, p) ==> RoomSeries(StoreReadings(s, p, x), r) == RoomSeries(s, r)
    ensures r in MeteredRooms(s, p) ==>
              && (r, x.month) in StoreReadings(s, p, x).roomReadings
              && var stored := StoreReadings(s, p, x).roomReadings[(r, x.month)];
              RoomSeries(StoreReadings(s, p, x), r)
              == RoomSeries(s, r)[x.month := Row(stored.previous, stored.current, stored.current - stored.previous)]
  {
    hide RoomSeries, StoreReadings, AcceptsReadings, MeteredRooms;
    SubmissionScope(s, p, x, now);
    var s' := StoreReadings(s, p, x);
    forall m: Month
      ensures m in RoomSeries(s', r) <==> m in RoomSeries(s, r) || (r in MeteredRooms(s, p) && m == x.month)
      ensures m in RoomSeries(s, r) && !(r in MeteredRooms(s, p) && m == x.month) ==>
          RoomSeries(s', r)[m] == RoomSeries(s, r)[m]
    {
      RoomSeriesAt(s, r, m);
      RoomSeriesAt(s', r, m);
    }
    RoomSeriesAt(s', r, x.month);
  }

  lemma ValidMonth(s: State, p: Id, x: Submission, now: Month)
    requires AcceptsReadings(s, p, x, now)
    ensures 1 <= x.month.month <= 12
    ensures MonthAt(MonthIndex(x.month)) == x.month
  {
    hide MonthAt, MonthIndex, ExpectedMain, RoomUnits;
    MonthIndexing(0, x.month);
  }

  lemma MeterRoomsSame(s: State, s': State, p: Id)
    requires s'.rooms == s.rooms
    ensures MeteredRooms(s', p) == MeteredRooms(s, p)
  {
  }

  lemma RoomReadingsAtHome(s: State, p: Id, r: Id, m: Month)
    requires Inv(s) && r in MeteredRooms(s, p) && (r, m) in s.roomReadings
    ensures s.roomReadings[(r, m)].propertyId == p
  {
    assert r in MeteredRooms(s, s.roomReadings[(r, m)].propertyId);
  }

  /** The first submission of a property that has no readings starts a chain of one month. */
  lemma FirstSubmissionStartsChain(s: State, p: Id, x: Submission, now: Month)
    requires AcceptsReadings(s, p, x, now)
    requires MainSeries(s, p) == map[] && forall r :: r in MeteredRooms(s, p) ==> RoomSeries(s, r) == map[]
    ensures ChainOk(StoreReadings(s, p, x), p, MonthIndex(x.month), MonthIndex(x.month))
  {
    hide StoreReadings, AcceptsReadings, MonthAt, MainSeries, RoomSeries, MeteredRooms, MonthIndex, SeriesOk;
    var m, s' := MonthIndex(x.month), StoreReadings(s, p, x);
    ValidMonth(s, p, x, now);
    SubmissionScope(s, p, x, now);
    MeterRoomsSame(s, s', p);
    MainSeriesAfter(s, p, x, now);
    SeriesStarts(MainSeries(s, p), m, Row(x.mainPrevious, x.mainCurrent, x.mainCurrent - x.mainPrevious));
    forall r | r in MeteredRooms(s, p)
      ensures SeriesOk(RoomSeries(s', r), m, m)
    {
      RoomSeriesAfter(s, p, x, now, r);
      var stored := s'.roomReadings[(r, x.month)];
      SeriesStarts(RoomSeries(s, r), m, Row(stored.previous, stored.current, stored.current - stored.previous));
    }
  }

  /** The reading that a submission stores for a room: its last one, should the room be listed twice. */
  function SubmittedCurrent(rooms: seq<RoomSubmission>, r: Id): real
    requires r in SubmittedRooms(rooms)
  {
    var front, reading := rooms[..|rooms| - 1], rooms[|rooms| - 1];
    SubmittedStep(rooms);
    if reading.roomId == r then reading.current else SubmittedCurrent(front, r)
  }

  lemma {:induction false} StoredCurrent(readings: map<(Id, Month), RoomReading>, p: Id, month: Month,
          rooms: seq<RoomSubmission>, r: Id)
    requires r in SubmittedRooms(rooms)
    ensures (r, month) in StoreRooms(readings, p, month, rooms)
    ensures StoreRooms(readings, p, month, rooms)[(r, month)].current == SubmittedCurrent(rooms, r)
  {
    var front, reading := rooms[..|rooms| - 1], rooms[|rooms| - 1];
    SubmittedStep(rooms);
    if reading.roomId != r {
      StoredCurrent(readings, p, month, front, r);
    }
  }

  /**
   The submitted month touches a month that the property has readings of, and if the month after has readings, main
   meter and rooms reach exactly the readings that it starts from.
   */
  ghost predicate JoinsChain(s: State, p: Id, x: Submission) {
    var m := MonthIndex(x.month);
    && ((p, MonthAt(m)) in s.mainReadings || (p, MonthAt(m - 1)) in s.mainReadings
        || (p, MonthAt(m + 1)) in s.mainReadings)
    && ((p, MonthAt(m + 1)) in s.mainReadings ==>
          && x.mainCurrent == s.mainReadings[(p, MonthAt(m + 1))].previous
          && forall r :: r in SubmittedRooms(x.rooms) ==> MeetsNext(s, x, r))
  }

  ghost predicate MeetsNext(s: State, x: Submission, r: Id)
    requires r in SubmittedRooms(x.rooms)
  {
    var next := MonthAt(MonthIndex(x.month) + 1);
    (r, next) in s.roomReadings && SubmittedCurrent(x.rooms, r) == s.roomReadings[(r, next)].previous
  }

  lemma SubmittedAreMetered(s: State, p: Id, x: Submission, now: Month)
    requires AcceptsReadings(s, p, x, now)
    ensures SubmittedRooms(x.rooms) == MeteredRooms(s, p)
  {
    hide MeteredRooms, SubmittedRooms, RoomUnits, ExpectedMain, Continues;
  }

  lemma StoredRoomRow(s: State, p: Id, x: Submission, r: Id)
    requires r in SubmittedRooms(x.rooms)
    ensures (r, x.month) in StoreReadings(s, p, x).roomReadings
    ensures StoreReadings(s, p, x).roomReadings[(r, x.month)].current == SubmittedCurrent(x.rooms, r)
  {
    hide StoreRooms, SubmittedCurrent, RoomUnits;
    StoredCurrent(s.roomReadings, p, x.month, x.rooms, r);
  }

  /** The main meter's part. */
  lemma MainJoined(s: State, p: Id, x: Submission, now: Month, first: int, last: int)
    requires Inv(s) && ChainOk(s, p, first, last) && AcceptsReadings(s, p, x, now)
    ensures var m := MonthIndex(x.month);
            SeriesOk(MainSeries(StoreReadings(s, p, x), p), Earlier(first, m), Later(last, m))
            <==> ((p, MonthAt(m)) in s.mainReadings || (p, MonthAt(m - 1)) in s.mainReadings
                  || (p, MonthAt(m + 1)) in s.mainReadings)
                 && ((p, MonthAt(m + 1)) in s.mainReadings ==>
                       x.mainCurrent == s.mainReadings[(p, MonthAt(m + 1))].previous)
  {
    hide Inv, AcceptsReadings, StoreReadings, MonthAt, MainSeries, RoomSeries, MonthIndex, SeriesOk, PreviousMonth,
         Earlier, Later;
    var m := MonthIndex(x.month);
    ValidMonth(s, p, x, now);
    MonthIndexing(m, x.month);
    MainSeriesAt(s, p, MonthAt(m - 1));
    MainSeriesAt(s, p, x.month);
    MainSeriesAt(s, p, MonthAt(m + 1));
    MainSeriesAfter(s, p, x, now);
    SubmissionContinues(s, p, x, now);
    SubmissionScope(s, p, x, now);
    SeriesJoined(MainSeries(s, p), first, last, m, Row(x.mainPrevious, x.mainCurrent, x.mainCurrent - x.mainPrevious));
  }

  /** The part of a metered room, whose series covers the same months. */
  lemma RoomJoined(s: State, p: Id, x: Submission, now: Month, first: int, last: int, r: Id)
    requires Inv(s) && ChainOk(s, p, first, last) && AcceptsReadings(s, p, x, now)
    requires r in MeteredRooms(s, p) && r in SubmittedRooms(x.rooms)
    ensures var m := MonthIndex(x.month);
            SeriesOk(RoomSeries(StoreReadings(s, p, x), r), Earlier(first, m), Later(last, m))
            <==> ((p, MonthAt(m)) in s.mainReadings || (p, MonthAt(m - 1)) in s.mainReadings
                  || (p, MonthAt(m + 1)) in s.mainReadings)
                 && ((p, MonthAt(m + 1)) in s.mainReadings ==> MeetsNext(s, x, r))
  {
    hide Inv, AcceptsReadings, StoreReadings, MonthAt, MainSeries, RoomSeries, MonthIndex, MeteredRooms, SeriesOk,
         SubmittedCurrent, PreviousMonth, SubmittedRooms, Earlier, Later;
    var m, s' := MonthIndex(x.month), StoreReadings(s, p, x);
    ValidMonth(s, p, x, now);
    MonthIndexing(m, x.month);
    SameMonthsStored(s, p, first, last, r, m - 1);
    SameMonthsStored(s, p, first, last, r, m);
    SameMonthsStored(s, p, first, last, r, m + 1);
    RoomSeriesAt(s, r, MonthAt(m - 1));
    RoomSeriesAt(s, r, x.month);
    RoomSeriesAt(s, r, MonthAt(m + 1));
    RoomSeriesAfter(s, p, x, now, r);
    SubmissionContinues(s, p, x, now);
    RoomReadingsHere(s, p, r);
    StoredRoomRow(s, p, x, r);
    var stored := s'.roomReadings[(r, x.month)];
    SeriesJoined(RoomSeries(s, r), first, last, m, Row(stored.previous, stored.current,
        stored.current - stored.previous));
  }

  /** Main meter and rooms of a chain have readings of the same months. */
  lemma SameMonthsStored(s: State, p: Id, first: int, last: int, r: Id, i: int)
    requires ChainOk(s, p, first, last) && r in MeteredRooms(s, p)
    ensures (r, MonthAt(i)) in s.roomReadings <==> (p, MonthAt(i)) in s.mainReadings
  {
    hide MonthAt, MainSeries, RoomSeries, SeriesOk, MeteredRooms;
    SeriesMonths(MainSeries(s, p), first, last);
    SeriesMonths(RoomSeries(s, r), first, last);
    MainSeriesAt(s, p, MonthAt(i));
    RoomSeriesAt(s, r, MonthAt(i));
  }

  lemma RoomReadingsHere(s: State, p: Id, r: Id)
    requires Inv(s) && r in MeteredRooms(s, p)
    ensures forall month: Month :: (r, month) in s.roomReadings ==> s.roomReadings[(r, month)].propertyId == p
  {
    forall month: Month | (r, month) in s.roomReadings
      ensures s.roomReadings[(r, month)].propertyId == p
    {
      RoomReadingsAtHome(s, p, r, month);
    }
  }

  /**
   What an accepted submission does to the chain of a property's meters: it stays one chain, over the old months and
   the new one, exactly when the submission joins it.
   */
  lemma SubmissionJoinsChain(s: State, p: Id, x: Submission, now: Month, first: int, last: int)
    requires Inv(s) && ChainOk(s, p, first, last) && AcceptsReadings(s, p, x, now)
    ensures ChainOk(StoreReadings(s, p, x), p, Earlier(first, MonthIndex(x.month)), Later(last, MonthIndex(x.month)))
            <==> JoinsChain(s, p, x)
  {
    hide Inv, AcceptsReadings, StoreReadings, MonthAt, MainSeries, RoomSeries, MonthIndex, MeteredRooms, SeriesOk,
         SubmittedCurrent, Earlier, Later, MeetsNext, SubmittedRooms;
    SubmittedAreMetered(s, p, x, now);
    SubmissionScope(s, p, x, now);
    MeterRoomsSame(s, StoreReadings(s, p, x), p);
    MainJoined(s, p, x, now, first, last);
    forall r | r in MeteredRooms(s, p) {
      RoomJoined(s, p, x, now, first, last, r);
    }
  }

  /** No other first and last month would make it a chain. */
  lemma ChainIsOverItsMonths(s: State, p: Id, x: Submission, now: Month, first: int, last: int, f: int, l: int)
    requires Inv(s) && ChainOk(s, p, first, last) && AcceptsReadings(s, p, x, now)
        && ChainOk(StoreReadings(s, p, x), p, f, l)
    ensures f == Earlier(first, MonthIndex(x.month)) && l == Later(last, MonthIndex(x.month))
  {
    hide Inv, AcceptsReadings, StoreReadings, MonthAt, MainSeries, RoomSeries, MonthIndex, MeteredRooms, SeriesOk;
    ValidMonth(s, p, x, now);
    MainSeriesAfter(s, p, x, now);
    SeriesMonths(MainSeries(s, p), first, last);
    SeriesMonths(MainSeries(StoreReadings(s, p, x), p), f, l);
    var x' := MainSeries(StoreReadings(s, p, x), p);
    forall i: int
      ensures MonthAt(i) in x' <==> first <= i <= last || i == MonthIndex(x.month)
    {
      if i != MonthIndex(x.month) {
        DistinctMonths(i, MonthIndex(x.month));
      }
    }
    assert MonthAt(first) in x' && MonthAt(last) in x' && MonthAt(f) in x' && MonthAt(l) in x';
  }

  /** Every metered room and the main meter end the month as they did before. */
  ghost predicate SameCurrents(s: State, p: Id, x: Submission) {
    && (p, x.month) in s.mainReadings && x.mainCurrent == s.mainReadings[(p, x.month)].current
    && forall r :: r in SubmittedRooms(x.rooms) ==>
         (r, x.month) in s.roomReadings && SubmittedCurrent(x.rooms, r) == s.roomReadings[(r, x.month)].current
  }

  /**
   Resubmitting a month that has a successor: the main meter and the metered rooms still form one chain exactly when
   every one of them ends the month with its old reading. The code does not look at the successor.
   */
  lemma EarlierResubmission(s: State, p: Id, x: Submission, now: Month, first: int, last: int)
    requires Inv(s) && ChainOk(s, p, first, last) && AcceptsReadings(s, p, x, now)
    requires first <= MonthIndex(x.month) < last
    ensures ChainOk(StoreReadings(s, p, x), p, first, last) <==> SameCurrents(s, p, x)
  {
    hide Inv, AcceptsReadings, StoreReadings, MonthAt, MainSeries, RoomSeries, MonthIndex, MeteredRooms, SubmittedRooms,
         SubmittedCurrent, SeriesOk, ChainOk;
    var m := MonthIndex(x.month);
    ValidMonth(s, p, x, now);
    SubmittedAreMetered(s, p, x, now);
    SubmissionJoinsChain(s, p, x, now, first, last);
    MainNextStartsHere(s, p, first, last, m);
    forall r | r in MeteredRooms(s, p) {
      RoomNextStartsHere(s, p, first, last, m, r);
    }
  }

  lemma NextStartsHere(x: Series, first: int, last: int, m: int)
    requires SeriesOk(x, first, last) && first <= m < last
    ensures MonthAt(m) in x && MonthAt(m + 1) in x && x[MonthAt(m + 1)].previous == x[MonthAt(m)].current
  {
    hide MonthAt;
    assert Linked(x, m + 1);
    assert m + 1 - 1 == m;
  }

  lemma MainNextStartsHere(s: State, p: Id, first: int, last: int, m: int)
    requires ChainOk(s, p, first, last) && first <= m < last
    ensures (p, MonthAt(m)) in s.mainReadings && (p, MonthAt(m + 1)) in s.mainReadings
    ensures s.mainReadings[(p, MonthAt(m + 1))].previous == s.mainReadings[(p, MonthAt(m))].current
  {
    hide MonthAt, MainSeries, SeriesOk, RoomSeries, MeteredRooms;
    NextStartsHere(MainSeries(s, p), first, last, m);
    MainSeriesAt(s, p, MonthAt(m));
    MainSeriesAt(s, p, MonthAt(m + 1));
  }

  lemma RoomNextStartsHere(s: State, p: Id, first: int, last: int, m: int, r: Id)
    requires ChainOk(s, p, first, last) && first <= m < last && r in MeteredRooms(s, p)
    ensures (r, MonthAt(m)) in s.roomReadings && (r, MonthAt(m + 1)) in s.roomReadings
    ensures s.roomReadings[(r, MonthAt(m + 1))].previous == s.roomReadings[(r, MonthAt(m))].current
  {
    hide MonthAt, MainSeries, SeriesOk, RoomSeries, MeteredRooms;
    NextStartsHere(RoomSeries(s, r), first, last, m);
    RoomSeriesAt(s, r, MonthAt(m));
    RoomSeriesAt(s, r, MonthAt(m + 1));
  }

  // ------------------------------------------------------------- the same month again

  /** Whatever was stored before, a submitted room ends up with its submitted reading. */
  lemma {:induction false} StoredIsSubmitted(a: map<(Id, Month), RoomReading>, b: map<(Id, Month), RoomReading>,
                                             p: Id, month: Month, rooms: seq<RoomSubmission>, r: Id)
    requires StoredOwner(a, p, month, r) == StoredOwner(b, p, month, r)
    ensures StoredOwner(StoreRooms(a, p, month, rooms), p, month, r) == StoredOwner(a, p, month, r)
    ensures StoredOwner(StoreRooms(b, p, month, rooms), p, month, r) == StoredOwner(b, p, month, r)
    ensures r in SubmittedRooms(rooms) ==>
              && (r, month) in StoreRooms(a, p, month, rooms) && (r, month) in StoreRooms(b, p, month, rooms)
              && StoreRooms(a, p, month, rooms)[(r, month)] == StoreRooms(b, p, month, rooms)[(r, month)]
    decreases |rooms|
  {
    if rooms != [] {
      StoredIsSubmitted(a, b, p, month, rooms[..|rooms| - 1], r);
      SubmittedStep(rooms);
    }
  }

  lemma StoringTwice(readings: map<(Id, Month), RoomReading>, p: Id, month: Month, rooms: seq<RoomSubmission>)
    requires ForwardRooms(rooms)
    ensures var once := StoreRooms(readings, p, month, rooms);
            StoreRooms(once, p, month, rooms) == once
  {
    hide StoreRooms, SubmittedRooms, ForwardRooms;
    var once := StoreRooms(readings, p, month, rooms);
    var twice := StoreRooms(once, p, month, rooms);
    StoreRoomsAt(readings, p, month, rooms);
    StoreRoomsAt(once, p, month, rooms);
    forall k
      ensures k in twice <==> k in once
      ensures k in once ==> twice[k] == once[k]
    {
      if k.1 == month && k.0 in SubmittedRooms(rooms) {
        assert k == (k.0, month);
        StoredIsSubmitted(readings, readings, p, month, rooms, k.0);
        StoredIsSubmitted(readings, once, p, month, rooms, k.0);
      }
    }
  }

  /** A stored month expects the previous readings that it stored. */
  lemma StoredIsExpected(s: State, p: Id, x: Submission, now: Month)
    requires Inv(s) && AcceptsReadings(s, p, x, now)
    ensures var s' := StoreReadings(s, p, x);
            && MeteredRooms(s', p) == MeteredRooms(s, p)
            && ExpectedMain(s', p, x.month) == ExpectedMain(s, p, x.month)
            && forall r :: r in MeteredRooms(s, p) ==>
                 r in s.rooms && r in s'.rooms && ExpectedRoom(s', p, r, x.month) == ExpectedRoom(s, p, r, x.month)
  {
    hide FreshIds, OccupancyOk, DebtOk, LedgerOk, TransactionsOk, SettledOk, PendingOk, AcceptsReadings, StoreRooms,
         RoomUnits, RawPool,
         ReadingByRoom;
    var s' := StoreReadings(s, p, x);
    SubmissionContinues(s, p, x, now);
    SubmissionScope(s, p, x, now);
    MeterRoomsSame(s, s', p);
    SubmittedReadingsAtHome(s, p, x, now);
  }

  lemma SubmittedReadingsAtHome(s: State, p: Id, x: Submission, now: Month)
    requires Inv(s) && AcceptsReadings(s, p, x, now)
    ensures forall r :: r in MeteredRooms(s, p) ==> HasRoomReading(StoreReadings(s, p, x), p, r, x.month)
  {
    hide FreshIds, OccupancyOk, DebtOk, LedgerOk, TransactionsOk, SettledOk, PendingOk, StoreRooms, RoomUnits, RawPool,
         ReadingByRoom,
         ExpectedMain, Continues;
    AcceptedRoomsGoForward(s, p, x, now);
    StoreRoomsAt(s.roomReadings, p, x.month, x.rooms);
    forall r | r in MeteredRooms(s, p) && (r, x.month) in s.roomReadings
      ensures s.roomReadings[(r, x.month)].propertyId == p
    {
      RoomReadingsAtHome(s, p, r, x.month);
    }
  }

  /** Submitting the same readings again is accepted and changes nothing. */
  lemma ResubmissionIsIdempotent(s: State, p: Id, ownerId: Id, x: Submission, now: Month)
    requires Inv(s) && SubmitAllReadings(s, p, ownerId, x, now).result.Ok?
    ensures var s' := SubmitAllReadings(s, p, ownerId, x, now).db;
            SubmitAllReadings(s', p, ownerId, x, now) == Reply(s', Ok(()))
  {
    hide Inv, AcceptsReadings, StoreReadings;
    var s' := StoreReadings(s, p, x);
    AcceptedAgain(s, p, x, now);
    StoredAgain(s, p, x, now);
  }

  lemma AcceptedAgain(s: State, p: Id, x: Submission, now: Month)
    requires Inv(s) && AcceptsReadings(s, p, x, now)
    ensures AcceptsReadings(StoreReadings(s, p, x), p, x, now)
    ensures StoreReadings(s, p, x).owners == s.owners
  {
    hide Inv, StoreRooms, RoomUnits, MeteredRooms, SubmittedRooms, ExpectedMain, ExpectedRoom, ValidSubmission;
    var s' := StoreReadings(s, p, x);
    StoredIsExpected(s, p, x, now);
    forall i | 0 <= i < |x.rooms|
      ensures x.rooms[i].roomId in s'.rooms && Continues(s', p, x.month, x.rooms[i])
    {
      assert x.rooms[i].roomId in SubmittedRooms(x.rooms) by { IsSubmitted(x.rooms, i); }
      assert Continues(s, p, x.month, x.rooms[i]);
    }
  }

  lemma IsSubmitted(rooms: seq<RoomSubmission>, i: nat)
    requires i < |rooms|
    ensures rooms[i].roomId in SubmittedRooms(rooms)
  {
  }

  lemma StoredAgain(s: State, p: Id, x: Submission, now: Month)
    requires AcceptsReadings(s, p, x, now)
    ensures StoreReadings(StoreReadings(s, p, x), p, x) == StoreReadings(s, p, x)
  {
    hide StoreRooms, RoomUnits;
    AcceptedRoomsGoForward(s, p, x, now);
    StoringTwice(s.roomReadings, p, x.month, x.rooms);
  }

  // --------------------------------------------------------------------- whole runs

  /** Only submissions write readings, and no step changes which rooms are metered. */
  ghost predicate SameStoredReadings(s: State, s': State) {
    && s'.mainReadings == s.mainReadings && s'.roomReadings == s.roomReadings
  }

  lemma ShiftKeepsReadings(s: State, t: Id, room: Id, property: Option<Id>, ownerId: Id)
    ensures SameStoredReadings(s, ShiftTenantRoom(s, t, room, property, ownerId).db)
  {
    hide ShiftCommit, ShiftPreflight, MoveInside, MoveAcross;
    var plan := ShiftPreflight(s, t, room, property, ownerId);
    if plan.Ok? {
      if ShiftCommit(s, plan.value).result.Err? {
        ShiftRefused(s, plan.value);
      } else if plan.value.newProperty == plan.value.oldProperty {
        ShiftedInside(s, plan.value);
        InsideFrame(s, plan.value);
      } else {
        ShiftedAcross(s, plan.value);
        AcrossFrame(s, plan.value);
      }
    }
  }

  lemma CreateTenantKeepsReadings(s: State, r: Onboarding, today: Calendar.Time, month: Month)
    requires Inv(s)
    ensures SameStoredReadings(s, CreateTenant(s, r, today, month).db)
  {
    hide Inv, InsertDues, FirstDues, Addable;
    if CreateTenant(s, r, today, month).result.Ok? {
      OnboardedDues(s, r, today, month);
    }
  }

  lemma RunKeepsReadings(s: State, p: Id, month: Month, order: seq<Id>, roomOrder: seq<Id>)
    requires Inv(s) && QueryOrders(s, p, order, roomOrder)
    ensures SameStoredReadings(s, RunBilling(s, p, month, order, roomOrder).db)
  {
    hide Inv, RunBilling, InsertDues, Addable, ReplacedDues, RunInputs, QueryOrders, ElectricityCollected;
    if RunBilling(s, p, month, order, roomOrder).result.Ok? && !IsCompleted(s, p, month) {
      RunBillingIs(s, p, month, order, roomOrder);
    } else {
      RefusedRun(s, p, month, order, roomOrder);
    }
  }

  lemma TenancyStepsKeepReadings(s: State, step: Step)
    requires Inv(s) && Allowed(s, step)
    requires step.DoDeleteTenant? || step.DoRevokeExit? || step.DoReActivate? || step.DoNotice? || step.DoCancelNotice?
             || step.DoApproveMoveOut? || step.DoConfirmMoveIn? || step.DoUpdateDetails?
    ensures SameStoredReadings(s, Apply(s, step))
  {
    hide Inv, DeleteTenant, RevokeTenancyExit, ReActiveTenancy, PutOnNoticePeriod, CancelNoticePeriod, ApproveMoveOut,
         ConfirmMoveIn, UpdateTenancyDetails;
  }

  lemma DueStepsKeepReadings(s: State, step: Step)
    requires Inv(s) && Allowed(s, step)
    requires step.DoAddDue? || step.DoAddRoomDue? || step.DoCreateDue? || step.DoDeleteDue? || step.DoEditDue?
             || step.DoCollect? || step.DoInitiatePayment? || step.DoMakePayment?
    ensures SameStoredReadings(s, Apply(s, step))
  {
    hide Inv, AddDueToTenant, AddDueToRoom, CreateDueForTenant, DeleteDue, EditDue, CollectDue, InitiatePayment,
         MakePayment;
  }

  lemma OnlySubmissionsWriteReadings(s: State, step: Step)
    requires Inv(s) && Allowed(s, step) && !step.DoSubmitReadings?
    ensures SameStoredReadings(s, Apply(s, step))
  {
    hide Inv, Allowed, SameStoredReadings, CreateTenant, ShiftTenantRoom, DeleteTenant, RevokeTenancyExit,
         ReActiveTenancy,
         PutOnNoticePeriod, CancelNoticePeriod, ApproveMoveOut, ConfirmMoveIn, UpdateTenancyDetails, AddDueToTenant,
         AddDueToRoom, CreateDueForTenant, DeleteDue, EditDue, CollectDue, InitiatePayment, MakePayment, HandleWebhook,
         RunBilling, QueryOrders;
    match step
    case DoCreateTenant(r, today, month) => CreateTenantKeepsReadings(s, r, today, month);
    case DoShift(t, room, property, owner) => ShiftKeepsReadings(s, t, room, property, owner);
    case DoWebhook(txn, hashValid, status) => WebhookKeepsReadings(s, txn, hashValid, status);
    case DoRunBilling(property, month, order, roomOrder) => BillingStepKeepsReadings(s, step);
    case DoDeleteTenant(_, _, _, _, _) => TenancyStepsKeepReadings(s, step);
    case DoRevokeExit(_, _) => TenancyStepsKeepReadings(s, step);
    case DoReActivate(_, _, _) => TenancyStepsKeepReadings(s, step);
    case DoNotice(_, _, _, _) => TenancyStepsKeepReadings(s, step);
    case DoCancelNotice(_, _) => TenancyStepsKeepReadings(s, step);
    case DoApproveMoveOut(_, _, _, _, _) => TenancyStepsKeepReadings(s, step);
    case DoConfirmMoveIn(_, _, _) => TenancyStepsKeepReadings(s, step);
    case DoUpdateDetails(_, _, _, _) => TenancyStepsKeepReadings(s, step);
    case _ => DueStepsKeepReadings(s, step);
  }

  lemma WebhookKeepsReadings(s: State, txn: Id, hashValid: bool, status: GatewayStatus)
    requires Inv(s)
    ensures SameStoredReadings(s, HandleWebhook(s, txn, hashValid, status).db)
  {
    hide Inv, HandleWebhook;
    WebhookFrame(s, txn, hashValid, status);
  }

  lemma BillingStepKeepsReadings(s: State, step: Step)
    requires Inv(s) && Allowed(s, step) && step.DoRunBilling?
    ensures SameStoredReadings(s, Apply(s, step))
  {
    hide Inv, RunBilling, QueryOrders;
    RunKeepsReadings(s, step.propertyId, step.month, step.order, step.roomOrder);
  }

  /** A stored previous reading is permanent: a resubmission must repeat it. */
  ghost predicate PreviousKept(s: State, s': State) {
    && (forall k :: k in s.mainReadings ==>
          k in s'.mainReadings && s'.mainReadings[k].previous == s.mainReadings[k].previous)
    && (forall k :: k in s.roomReadings ==>
          k in s'.roomReadings && s'.roomReadings[k].previous == s.roomReadings[k].previous)
  }

  lemma SubmissionKeepsPrevious(s: State, p: Id, ownerId: Id, x: Submission, now: Month)
    requires Inv(s)
    ensures PreviousKept(s, SubmitAllReadings(s, p, ownerId, x, now).db)
  {
    hide FreshIds, OccupancyOk, DebtOk, LedgerOk, TransactionsOk, SettledOk, PendingOk, AcceptsReadings, StoreReadings,
         RawPool, ReadingByRoom;
    if SubmitAllReadings(s, p, ownerId, x, now).result.Ok? {
      SubmissionContinues(s, p, x, now);
      SubmissionScope(s, p, x, now);
      forall k | k in s.roomReadings && k.1 == x.month && k.0 in MeteredRooms(s, p)
        ensures HasRoomReading(s, p, k.0, x.month)
      {
        assert k == (k.0, x.month);
        assert k.0 in MeteredRooms(s, s.roomReadings[k].propertyId);
      }
      var s' := StoreReadings(s, p, x);
      forall k | k in s.roomReadings
        ensures k in s'.roomReadings && s'.roomReadings[k].previous == s.roomReadings[k].previous
      {
        if k.1 == x.month && k.0 in MeteredRooms(s, p) {
          assert k == (k.0, x.month);
        }
      }
    }
  }

  lemma StepKeepsPrevious(s: State, step: Step)
    requires Inv(s) && Allowed(s, step)
    ensures PreviousKept(s, Apply(s, step))
  {
    hide Inv, SubmitAllReadings, Allowed;
    if step.DoSubmitReadings? {
      SubmissionKeepsPrevious(s, step.propertyId, step.ownerId, step.submission, step.thisMonth);
    } else {
      hide Apply;
      OnlySubmissionsWriteReadings(s, step);
    }
  }

  /** Over any stretch of any run, no stored previous reading changes. */
  lemma {:induction false} PreviousReadingsArePermanent(states: seq<State>, steps: seq<Step>, i: nat, j: nat)
    requires IsRun(states, steps) && Inv(states[0])
    requires i <= j < |states|
    ensures PreviousKept(states[i], states[j])
    decreases j
  {
    hide Inv, Apply, Allowed;
    RunsKeepInv(states, steps);
    if i < j {
      PreviousReadingsArePermanent(states, steps, i, j - 1);
      StepKeepsPrevious(states[j - 1], steps[j - 1]);
    }
  }

  lemma OtherPropertyChain(s: State, q: Id, x: Submission, now: Month, p: Id, first: int, last: int)
    requires AcceptsReadings(s, q, x, now) && q != p && ChainOk(s, p, first, last)
    ensures ChainOk(StoreReadings(s, q, x), p, first, last)
  {
    hide AcceptsReadings, StoreReadings, MonthAt, SeriesOk, MainSeries, RoomSeries;
    var s' := StoreReadings(s, q, x);
    SubmissionScope(s, q, x, now);
    MeterRoomsSame(s, s', p);
    MainSeriesAfter(s, q, x, now);
    forall r | r in MeteredRooms(s, p)
      ensures RoomSeries(s', r) == RoomSeries(s, r)
    {
      RoomSeriesAfter(s, q, x, now, r);
    }
  }

  lemma SameChain(s: State, s': State, p: Id, first: int, last: int)
    requires ChainOk(s, p, first, last) && SameStoredReadings(s, s') && MeteredRooms(s', p) == MeteredRooms(s, p)
    ensures ChainOk(s', p, first, last)
  {
    hide MeteredRooms, SeriesOk;
    assert MainSeries(s', p) == MainSeries(s, p);
    forall r | r in MeteredRooms(s, p)
      ensures RoomSeries(s', r) == RoomSeries(s, r)
    {
    }
  }

  /** No step changes the rooms apart from their bed counters. */
  lemma StepKeepsInvMeters(s: State, step: Step, p: Id)
    requires Inv(s) && Allowed(s, step)
    ensures MeteredRooms(Apply(s, step), p) == MeteredRooms(s, p)
  {
    hide Inv, MeteredRooms, Apply;
    StepKeepsRooms(s, step);
    SameRoomsSameMeters(s, Apply(s, step), p);
  }

  lemma SameRoomsSameMeters(s: State, s': State, p: Id)
    requires SameRooms(s.rooms, s'.rooms)
    ensures MeteredRooms(s', p) == MeteredRooms(s, p)
  {
    forall r
      ensures r in MeteredRooms(s', p) <==> r in MeteredRooms(s, p)
    {
      assert r in s.rooms.Keys <==> r in s'.rooms.Keys;
    }
  }

  /** The property's readings form one chain, or it has none. */
  ghost predicate Chained(s: State, p: Id) {
    NoReadings(s, p) || exists first, last :: ChainOk(s, p, first, last)
  }

  ghost predicate NoReadings(s: State, p: Id) {
    MainSeries(s, p) == map[] && forall r :: r in MeteredRooms(s, p) ==> RoomSeries(s, r) == map[]
  }

  /** The step is an accepted submission for the property. */
  ghost predicate Submits(s: State, step: Step, p: Id) {
    && step.DoSubmitReadings? && step.propertyId == p
    && Owns(s, step.ownerId, p) && AcceptsReadings(s, p, step.submission, step.thisMonth)
  }

  /** An accepted submission for the property is its first one or joins the chain of those before. */
  ghost predicate InOrder(s: State, step: Step, p: Id) {
    Submits(s, step, p) ==> MainSeries(s, p) == map[] || JoinsChain(s, p, step.submission)
  }

  lemma SubmittedState(s: State, step: Step, p: Id)
    requires Submits(s, step, p)
    ensures Apply(s, step) == StoreReadings(s, p, step.submission)
  {
    hide Owns, AcceptsReadings, StoreReadings;
  }

  /** A step that is no accepted submission for the property leaves its chain alone. */
  lemma OtherStepKeepsChain(s: State, step: Step, p: Id, first: int, last: int)
    requires Inv(s) && Allowed(s, step) && !Submits(s, step, p) && ChainOk(s, p, first, last)
    ensures ChainOk(Apply(s, step), p, first, last)
  {
    hide Inv, AcceptsReadings, StoreReadings, MonthAt, ChainOk, Owns;
    if step.DoSubmitReadings? {
      var DoSubmitReadings(q, ownerId, x, now) := step;
      if SubmitAllReadings(s, q, ownerId, x, now).result.Ok? {
        OtherPropertyChain(s, q, x, now, p, first, last);
      }
    } else {
      hide Apply;
      OnlySubmissionsWriteReadings(s, step);
      StepKeepsInvMeters(s, step, p);
      SameChain(s, Apply(s, step), p, first, last);
    }
  }

  lemma OtherStepKeepsNone(s: State, step: Step, p: Id)
    requires Inv(s) && Allowed(s, step) && !Submits(s, step, p) && NoReadings(s, p)
    ensures NoReadings(Apply(s, step), p)
  {
    hide Inv, AcceptsReadings, StoreReadings, Owns, MainSeries, RoomSeries, MeteredRooms;
    if step.DoSubmitReadings? {
      var DoSubmitReadings(q, ownerId, x, now) := step;
      if SubmitAllReadings(s, q, ownerId, x, now).result.Ok? {
        OtherPropertyNone(s, q, x, now, p);
      }
    } else {
      hide Apply;
      OnlySubmissionsWriteReadings(s, step);
      StepKeepsInvMeters(s, step, p);
      SameSeries(s, Apply(s, step));
    }
  }

  lemma SameSeries(s: State, s': State)
    requires SameStoredReadings(s, s')
    ensures forall p :: MainSeries(s', p) == MainSeries(s, p)
    ensures forall r :: RoomSeries(s', r) == RoomSeries(s, r)
  {
  }

  lemma OtherPropertyNone(s: State, q: Id, x: Submission, now: Month, p: Id)
    requires AcceptsReadings(s, q, x, now) && q != p && NoReadings(s, p)
    ensures NoReadings(StoreReadings(s, q, x), p)
  {
    hide AcceptsReadings, StoreReadings, MainSeries, RoomSeries;
    var s' := StoreReadings(s, q, x);
    SubmissionScope(s, q, x, now);
    MeterRoomsSame(s, s', p);
    MainSeriesAfter(s, q, x, now);
    forall r | r in MeteredRooms(s, p)
      ensures RoomSeries(s', r) == RoomSeries(s, r)
    {
      RoomSeriesAfter(s, q, x, now, r);
    }
  }

  lemma ChainHasReadings(s: State, p: Id, first: int, last: int)
    requires ChainOk(s, p, first, last)
    ensures MainSeries(s, p) != map[]
  {
    hide MainSeries, RoomSeries, MeteredRooms, MonthAt, SeriesOk;
    SeriesMonths(MainSeries(s, p), first, last);
    assert MonthAt(first) in MainSeries(s, p);
  }

  /** One step keeps the readings of a property chained exactly when it is in order. */
  lemma ChainStep(s: State, step: Step, p: Id)
    requires Inv(s) && Allowed(s, step) && Chained(s, p)
    ensures Chained(Apply(s, step), p) <==> InOrder(s, step, p)
  {
    hide Inv, Allowed, Submits, JoinsChain, Apply, ChainOk, MainSeries, NoReadings, MonthIndex, Earlier, Later;
    if !Submits(s, step, p) {
      if NoReadings(s, p) {
        OtherStepKeepsNone(s, step, p);
      } else {
        var first, last :| ChainOk(s, p, first, last);
        OtherStepKeepsChain(s, step, p, first, last);
      }
    } else if NoReadings(s, p) {
      FirstChain(s, step, p);
    } else {
      var first, last :| ChainOk(s, p, first, last);
      JoinedChain(s, step, p, first, last);
    }
  }

  lemma FirstChain(s: State, step: Step, p: Id)
    requires Submits(s, step, p) && NoReadings(s, p)
    ensures Chained(Apply(s, step), p) && MainSeries(s, p) == map[]
  {
    hide Apply, AcceptsReadings, StoreReadings, ChainOk, MainSeries, RoomSeries, MeteredRooms, MonthIndex, Owns;
    SubmittedState(s, step, p);
    FirstSubmissionStartsChain(s, p, step.submission, step.thisMonth);
  }

  lemma JoinedChain(s: State, step: Step, p: Id, first: int, last: int)
    requires Inv(s) && Submits(s, step, p) && ChainOk(s, p, first, last)
    ensures Chained(Apply(s, step), p) <==> JoinsChain(s, p, step.submission)
    ensures MainSeries(s, p) != map[]
  {
    hide Inv, Apply, AcceptsReadings, StoreReadings, ChainOk, MainSeries, RoomSeries, MeteredRooms, MonthIndex,
         JoinsChain,
         Earlier, Later, Owns;
    var x, now := step.submission, step.thisMonth;
    SubmittedState(s, step, p);
    ChainHasReadings(s, p, first, last);
    SubmissionJoinsChain(s, p, x, now, first, last);
    StoredIsNotEmpty(s, p, x, now);
    forall f, l | ChainOk(StoreReadings(s, p, x), p, f, l)
      ensures f == Earlier(first, MonthIndex(x.month)) && l == Later(last, MonthIndex(x.month))
    {
      ChainIsOverItsMonths(s, p, x, now, first, last, f, l);
    }
  }

  lemma StoredIsNotEmpty(s: State, p: Id, x: Submission, now: Month)
    requires AcceptsReadings(s, p, x, now)
    ensures !NoReadings(StoreReadings(s, p, x), p)
  {
    hide AcceptsReadings, StoreReadings, MainSeries, RoomSeries, MeteredRooms;
    MainSeriesAfter(s, p, x, now);
    assert x.month in MainSeries(StoreReadings(s, p, x), p);
  }

  // ------------------------------------------------------------- a correction too late

  /** The submission with the main meter one unit further. */
  function OneUnitMore(x: Submission): Submission {
    x.(mainCurrent := x.mainCurrent + 1.0)
  }

  /**
   How a chain breaks: two months of a property are submitted in order, and then the first is submitted again with a
   corrected main reading. The correction is accepted, and the readings are no chain any more.
   */
  lemma LateCorrectionBreaksChain(s: State, p: Id, ownerId: Id, x: Submission, y: Submission, now: Month)
    requires Inv(s) && NoReadings(s, p) && MonthIndex(y.month) == MonthIndex(x.month) + 1
    requires SubmitAllReadings(s, p, ownerId, x, now).result.Ok?
    requires SubmitAllReadings(SubmitAllReadings(s, p, ownerId, x, now).db, p, ownerId, y, now).result.Ok?
    ensures var submitted := SubmitAllReadings(SubmitAllReadings(s, p, ownerId, x, now).db, p, ownerId, y, now).db;
            var corrected := SubmitAllReadings(submitted, p, ownerId, OneUnitMore(x), now);
            && Chained(submitted, p) && corrected.result.Ok? && !Chained(corrected.db, p)
  {
    hide Inv, AcceptsReadings, StoreReadings, ChainOk, NoReadings, MonthIndex, OneUnitMore, Owns;
    var s1 := StoreReadings(s, p, x);
    var s2, m := StoreReadings(s1, p, y), MonthIndex(x.month);
    SubmitKeepsInv(s, p, ownerId, x, now);
    SubmitKeepsInv(s1, p, ownerId, y, now);
    OwnersStay(s, p, x);
    OwnersStay(s1, p, y);
    TwoMonthsChain(s, p, x, y, now);
    CorrectionAccepted(s, p, x, y, now);
    CorrectionBreaks(s2, p, x, now, m);
  }

  lemma OwnersStay(s: State, p: Id, x: Submission)
    ensures forall ownerId :: Owns(StoreReadings(s, p, x), ownerId, p) <==> Owns(s, ownerId, p)
  {
    hide StoreRooms, RoomUnits;
  }

  lemma TwoMonthsChain(s: State, p: Id, x: Submission, y: Submission, now: Month)
    requires Inv(s) && NoReadings(s, p) && MonthIndex(y.month) == MonthIndex(x.month) + 1
    requires AcceptsReadings(s, p, x, now) && Inv(StoreReadings(s, p, x))
    requires AcceptsReadings(StoreReadings(s, p, x), p, y, now)
    ensures ChainOk(StoreReadings(StoreReadings(s, p, x), p, y), p, MonthIndex(x.month), MonthIndex(y.month))
  {
    hide Inv, AcceptsReadings, StoreReadings, MonthAt, MonthIndex, MainSeries, RoomSeries, MeteredRooms, SeriesOk,
         SubmittedRooms, MeetsNext;
    var s1, m := StoreReadings(s, p, x), MonthIndex(x.month);
    FirstSubmissionStartsChain(s, p, x, now);
    SeriesMonths(MainSeries(s1, p), m, m);
    MainSeriesAt(s1, p, MonthAt(m));
    MainSeriesAt(s1, p, MonthAt(m + 2));
    assert m + 1 + 1 == m + 2 && m + 1 - 1 == m;
    SubmissionJoinsChain(s1, p, y, now, m, m);
  }

  lemma CorrectionAccepted(s: State, p: Id, x: Submission, y: Submission, now: Month)
    requires Inv(s) && MonthIndex(y.month) == MonthIndex(x.month) + 1
    requires AcceptsReadings(s, p, x, now) && Inv(StoreReadings(s, p, x))
    requires AcceptsReadings(StoreReadings(s, p, x), p, y, now)
    ensures var s2 := StoreReadings(StoreReadings(s, p, x), p, y);
            && AcceptsReadings(s2, p, OneUnitMore(x), now)
            && (p, x.month) in s2.mainReadings && s2.mainReadings[(p, x.month)].current == x.mainCurrent
  {
    hide Inv, AcceptsReadings, StoreReadings, MonthIndex, OneUnitMore, MeteredRooms;
    var s1 := StoreReadings(s, p, x);
    AcceptedAgain(s, p, x, now);
    SubmissionScope(s, p, x, now);
    SubmissionScope(s1, p, y, now);
    MeterRoomsSame(s, s1, p);
    assert x.month != y.month;
    StillAccepted(s1, p, y, x, now);
    MoreIsAccepted(StoreReadings(s1, p, y), p, x, now);
  }

  /** A submission of another month leaves a month's resubmission acceptable. */
  lemma StillAccepted(s: State, p: Id, y: Submission, x: Submission, now: Month)
    requires Inv(s) && AcceptsReadings(s, p, y, now) && AcceptsReadings(s, p, x, now) && x.month != y.month
    requires (p, x.month) in s.mainReadings && forall r :: r in MeteredRooms(s, p) ==> (r, x.month) in s.roomReadings
    ensures AcceptsReadings(StoreReadings(s, p, y), p, x, now)
  {
    hide Inv, StoreRooms, RoomUnits, MeteredRooms, SubmittedRooms, ValidSubmission, StoreReadings, After;
    var s' := StoreReadings(s, p, y);
    SubmissionScope(s, p, y, now);
    MeterRoomsSame(s, s', p);
    DuesStay(s, p, y);
    RoomReadingsAre(s, p, x.month);
    forall i | 0 <= i < |x.rooms|
      ensures x.rooms[i].roomId in s'.rooms && Continues(s', p, x.month, x.rooms[i])
    {
      IsSubmitted(x.rooms, i);
      assert Continues(s, p, x.month, x.rooms[i]);
    }
  }

  lemma DuesStay(s: State, p: Id, x: Submission)
    ensures StoreReadings(s, p, x).dues == s.dues
  {
    hide StoreRooms, RoomUnits;
  }

  lemma RoomReadingsAre(s: State, p: Id, m: Month)
    requires Inv(s) && forall r :: r in MeteredRooms(s, p) ==> (r, m) in s.roomReadings
    ensures forall r :: r in MeteredRooms(s, p) ==> HasRoomReading(s, p, r, m)
  {
    hide Inv, MeteredRooms;
    forall r | r in MeteredRooms(s, p)
      ensures HasRoomReading(s, p, r, m)
    {
      RoomReadingsAtHome(s, p, r, m);
    }
  }

  lemma MoreIsAccepted(s: State, p: Id, x: Submission, now: Month)
    requires AcceptsReadings(s, p, x, now)
    ensures AcceptsReadings(s, p, OneUnitMore(x), now)
  {
    hide MeteredRooms, SubmittedRooms, RoomUnits, ExpectedMain, ElectricityCollected, After;
    var more := OneUnitMore(x);
    forall i | 0 <= i < |more.rooms|
      ensures more.rooms[i].roomId in s.rooms && Continues(s, p, more.month, more.rooms[i])
    {
      assert more.rooms[i] == x.rooms[i];
    }
  }

  lemma CorrectionBreaks(s: State, p: Id, x: Submission, now: Month, m: int)
    requires Inv(s) && ChainOk(s, p, m, m + 1) && AcceptsReadings(s, p, OneUnitMore(x), now)
    requires m == MonthIndex(x.month) && (p, x.month) in s.mainReadings
    requires s.mainReadings[(p, x.month)].current == x.mainCurrent
    ensures !Chained(StoreReadings(s, p, OneUnitMore(x)), p)
  {
    hide Inv, AcceptsReadings, StoreReadings, ChainOk, NoReadings, MonthIndex;
    var more := OneUnitMore(x);
    var s' := StoreReadings(s, p, more);
    EarlierResubmission(s, p, more, now, m, m + 1);
    StoredIsNotEmpty(s, p, more, now);
    if Chained(s', p) {
      var f, l :| ChainOk(s', p, f, l);
      ChainIsOverItsMonths(s, p, more, now, m, m + 1, f, l);
      assert false;
    }
  }

  ghost predicate AllChained(states: seq<State>, p: Id) {
    forall i :: 0 <= i < |states| ==> Chained(states[i], p)
  }

  ghost predicate AllInOrder(states: seq<State>, steps: seq<Step>, p: Id)
    requires |states| == |steps| + 1
  {
    forall i :: 0 <= i < |steps| ==> InOrder(states[i], steps[i], p)
  }

  /**
   Over every run of an initially unused database, the readings of a property stay one unbroken chain, across year
   ends, exactly as long as each accepted submission is in order.
   */
  lemma {:induction false} MeterChainHolds(states: seq<State>, steps: seq<Step>, p: Id)
    requires IsRun(states, steps) && Safety.Unused(states[0])
    ensures AllChained(states, p) <==> AllInOrder(states, steps, p)
    decreases |steps|
  {
    hide Inv, Apply, Allowed, Chained, InOrder, Safety.Unused;
    if steps == [] {
      UnusedIsChained(states[0], p);
    } else {
      var n := |steps| - 1;
      Safety.UnusedInv(states[0]);
      RunsKeepInv(states, steps);
      MeterChainHolds(states[..n + 1], steps[..n], p);
      if AllChained(states[..n + 1], p) {
        assert states[..n + 1][n] == states[n];
        ChainStep(states[n], steps[n], p);
      }
      ChainedPrefix(states, p);
      InOrderPrefix(states, steps, p);
    }
  }

  lemma ChainedPrefix(states: seq<State>, p: Id)
    requires |states| > 1
    ensures AllChained(states, p) <==> AllChained(states[..|states| - 1], p) && Chained(states[|states| - 1], p)
  {
    hide Chained;
    var front := states[..|states| - 1];
    if AllChained(states, p) {
      forall i | 0 <= i < |front|
        ensures Chained(front[i], p)
      {
        assert front[i] == states[i];
      }
    }
    if AllChained(front, p) && Chained(states[|states| - 1], p) {
      forall i | 0 <= i < |states|
        ensures Chained(states[i], p)
      {
        if i < |front| {
          assert front[i] == states[i];
        }
      }
    }
  }

  lemma InOrderPrefix(states: seq<State>, steps: seq<Step>, p: Id)
    requires |states| == |steps| + 1 && steps != []
    ensures var n := |steps| - 1;
            AllInOrder(states, steps, p) <==>
                  AllInOrder(states[..n + 1], steps[..n], p) && InOrder(states[n], steps[n], p)
  {
    hide InOrder;
    var n := |steps| - 1;
    var front, before := states[..n + 1], steps[..n];
    if AllInOrder(states, steps, p) {
      forall i | 0 <= i < n
        ensures InOrder(front[i], before[i], p)
      {
        assert front[i] == states[i] && before[i] == steps[i];
      }
    }
    if AllInOrder(front, before, p) && InOrder(states[n], steps[n], p) {
      forall i | 0 <= i < |steps|
        ensures InOrder(states[i], steps[i], p)
      {
        if i < n {
          assert front[i] == states[i] && before[i] == steps[i];
        }
      }
    }
  }

  lemma UnusedIsChained(s: State, p: Id)
    requires Safety.Unused(s)
    ensures Chained(s, p)
  {
    assert MainSeries(s, p) == map[];
    assert forall r :: r in MeteredRooms(s, p) ==> RoomSeries(s, r) == map[];
  }

  /**
   So in every state of such a run the units consumed in all months telescope: for the main meter and for each metered
   room they are the last current reading minus the first previous one.
   */
  lemma MetersTelescope(states: seq<State>, steps: seq<Step>, p: Id, i: nat) returns (first: int, last: int)
    requires IsRun(states, steps) && Safety.Unused(states[0]) && i < |states|
    requires AllInOrder(states, steps, p)
    ensures var s := states[i];
            NoReadings(s, p)
            || (&& ChainOk(s, p, first, last)
                && (p, MonthAt(first)) in s.mainReadings && (p, MonthAt(last)) in s.mainReadings
                && UnitsSum(MainSeries(s, p), first, last)
                   == s.mainReadings[(p, MonthAt(last))].current - s.mainReadings[(p, MonthAt(first))].previous
                && forall r :: r in MeteredRooms(s, p) ==> RoomTelescopes(s, r, first, last))
  {
    hide Apply, Allowed, InOrder, Safety.Unused, NoReadings, ChainOk, MeteredRooms, RoomTelescopes, UnitsSum, MonthAt,
         MainSeries;
    var s := states[i];
    MeterChainHolds(states, steps, p);
    assert Chained(s, p);
    first, last := 0, 0;
    if !NoReadings(s, p) {
      first, last :| ChainOk(s, p, first, last);
      MainMeterTelescopes(s, p, first, last);
      forall r | r in MeteredRooms(s, p)
        ensures RoomTelescopes(s, r, first, last)
      {
        RoomTelescoped(s, p, first, last, r);
      }
    }
  }

  ghost predicate RoomTelescopes(s: State, r: Id, first: int, last: int) {
    && SeriesOk(RoomSeries(s, r), first, last)
    && (r, MonthAt(first)) in s.roomReadings && (r, MonthAt(last)) in s.roomReadings
    && UnitsSum(RoomSeries(s, r), first, last)
       == s.roomReadings[(r, MonthAt(last))].current - s.roomReadings[(r, MonthAt(first))].previous
  }

  lemma RoomTelescoped(s: State, p: Id, first: int, last: int, r: Id)
    requires ChainOk(s, p, first, last) && r in MeteredRooms(s, p)
    ensures RoomTelescopes(s, r, first, last)
  {
    hide UnitsSum, MonthAt, RoomSeries, ChainOk, MeteredRooms;
    RoomMeterTelescopes(s, p, first, last, r);
  }
}
