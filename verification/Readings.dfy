/** Which readings are accepted and stored, told from the rows, and where the meters of a property started. */
module Readings {
  import opened DueRules
  import opened ElectricityProofs
  import opened ElectricityRules
  import opened Invariants
  import opened MeterChain
  import Safety
  import opened System
  import opened Tables
  import opened TenancyProofs
  import opened Text

  // -------------------------------------------------------------------- where a month starts

  /** b is the calendar month before m. */
  predicate IsBefore(b: Month, m: Month) {
    1 <= b.month <= 12 && 12 * b.year + b.month + 1 == 12 * m.year + m.month
  }

  lemma OneMonthBefore(b: Month, m: Month)
    requires 1 <= m.month <= 12
    ensures IsBefore(b, m) <==> b == PreviousMonth(m)
  {
  }

  /** The reading that the meter showed when it was installed. */
  function Installed(room: Room): real {
    match room.initialMeterReading
    case Some(reading) => reading
    case None => 0.0
  }

  /**
   A room's month starts with the reading it was first submitted with; a new month with the last reading of the month
   before; and if that has none, with the reading of the installed meter.
   */
  ghost predicate RoomStarts(s: State, room: Id, m: Month, previous: real)
    requires room in s.rooms
  {
    && ((room, m) in s.roomReadings ==> previous == s.roomReadings[(room, m)].previous)
    && ((room, m) !in s.roomReadings ==>
          && (forall b :: IsBefore(b, m) && (room, b) in s.roomReadings ==>
                previous == s.roomReadings[(room, b)].current)
          && ((forall b :: IsBefore(b, m) ==> (room, b) !in s.roomReadings) ==> previous == Installed(s.rooms[room])))
  }

  ghost predicate MainStarts(s: State, p: Id, m: Month, previous: real) {
    && ((p, m) in s.mainReadings ==> previous == s.mainReadings[(p, m)].previous)
    && ((p, m) !in s.mainReadings ==>
          && (forall b :: IsBefore(b, m) && (p, b) in s.mainReadings ==> previous == s.mainReadings[(p, b)].current)
          && ((forall b :: IsBefore(b, m) ==> (p, b) !in s.mainReadings) ==> previous == 0.0))
  }

  /** The room is in the property and has a meter. */
  predicate HasMeter(s: State, p: Id, room: Id) {
    room in s.rooms && s.rooms[room].propertyId == p && s.rooms[room].hasMeter
  }

  lemma MainStartsExactly(s: State, p: Id, m: Month, previous: real)
    requires 1 <= m.month <= 12
    ensures MainStarts(s, p, m, previous) <==> previous == ExpectedMain(s, p, m)
  {
    hide PreviousMonth;
    forall b {
      OneMonthBefore(b, m);
    }
    assert IsBefore(PreviousMonth(m), m);
  }

  lemma RoomStartsExactly(s: State, p: Id, room: Id, m: Month, previous: real)
    requires Inv(s) && 1 <= m.month <= 12 && HasMeter(s, p, room)
    ensures RoomStarts(s, room, m, previous) <==> previous == ExpectedRoom(s, p, room, m)
  {
    hide Inv, PreviousMonth;
    RoomReadingsHere(s, p, room);
    forall b {
      OneMonthBefore(b, m);
    }
    assert IsBefore(PreviousMonth(m), m);
  }

  // ---------------------------------------------------------------------------- acceptance

  /** What a submission has to be, by itself. */
  predicate WellFormed(x: Submission) {
    && 1 <= x.month.month <= 12 && x.month.year >= 2020
    && 0.0 <= x.mainPrevious <= x.mainCurrent && x.unitPrice >= 0.01
    && forall i :: 0 <= i < |x.rooms| ==> 0.0 <= x.rooms[i].previous <= x.rooms[i].current
  }

  /** Nothing of the month's electricity was collected. */
  ghost predicate NothingCollected(s: State, p: Id, m: Month) {
    forall d :: d in s.dues && s.dues[d].dueType == Electricity && s.dues[d].propertyId == p && s.dues[d].month == m ==>
      s.dues[d].status != Paid && s.dues[d].status != Partial
  }

  /** Exactly the metered rooms are among the rooms. */
  ghost predicate ReadsMeteredRooms(s: State, p: Id, rooms: seq<RoomSubmission>) {
    forall r :: HasMeter(s, p, r) <==> Reads(rooms, r)
  }

  ghost predicate Reads(rooms: seq<RoomSubmission>, r: Id) {
    exists i :: 0 <= i < |rooms| && rooms[i].roomId == r
  }

  /** The submission fits the rows: every meter starts where it should, and exactly the metered rooms are read. */
  ghost predicate FitsRows(s: State, p: Id, x: Submission) {
    && MainStarts(s, p, x.month, x.mainPrevious)
    && ReadsMeteredRooms(s, p, x.rooms)
    && RoomsStart(s, x.month, x.rooms)
    && RoomUnits(x.rooms) <= x.mainCurrent - x.mainPrevious
  }

  /**
   A submission is accepted exactly if it is well formed, not for a future month, fits the rows, and nothing of the
   month was collected.
   */
  lemma AcceptedExactly(s: State, p: Id, x: Submission, now: Month)
    requires Inv(s)
    ensures AcceptsReadings(s, p, x, now)
        <==> && WellFormed(x) && FitsRows(s, p, x) && NothingCollected(s, p, x.month)
             && (x.month.year < now.year || (x.month.year == now.year && x.month.month <= now.month))
  {
    hide Inv, ExpectedMain, MainStarts, RoomUnits, NothingCollected, ElectricityCollected, RoomsStart, RoomsExpected,
         ReadsMeteredRooms, SubmittedRooms, MeteredRooms;
    CollectedExactly(s, p, x.month);
    RoomsAreRead(s, p, x.rooms);
    RoomsContinue(s, p, x);
    if 1 <= x.month.month <= 12 {
      MainStartsExactly(s, p, x.month, x.mainPrevious);
      if SubmittedRooms(x.rooms) == MeteredRooms(s, p) {
        RoomsStartExactly(s, p, x.month, x.rooms);
      }
    }
  }

  /** No room runs backwards, and each starts as expected. */
  lemma RoomsContinue(s: State, p: Id, x: Submission)
    ensures (forall i :: 0 <= i < |x.rooms| ==>
               x.rooms[i].roomId in s.rooms && Continues(s, p, x.month, x.rooms[i]))
        <==> && RoomsExpected(s, p, x.month, x.rooms)
             && forall i :: 0 <= i < |x.rooms| ==> x.rooms[i].previous <= x.rooms[i].current
  {
    hide ExpectedRoom;
  }

  lemma CollectedExactly(s: State, p: Id, m: Month)
    ensures NothingCollected(s, p, m) <==> !ElectricityCollected(s, p, m)
  {
  }

  /** The rooms that are read start as their rows say. */
  ghost predicate RoomsStart(s: State, m: Month, rooms: seq<RoomSubmission>) {
    forall i :: 0 <= i < |rooms| ==>
      rooms[i].roomId in s.rooms && RoomStarts(s, rooms[i].roomId, m, rooms[i].previous)
  }

  ghost predicate RoomsExpected(s: State, p: Id, m: Month, rooms: seq<RoomSubmission>) {
    forall i :: 0 <= i < |rooms| ==>
      rooms[i].roomId in s.rooms && rooms[i].previous == ExpectedRoom(s, p, rooms[i].roomId, m)
  }

  lemma RoomsStartExactly(s: State, p: Id, m: Month, rooms: seq<RoomSubmission>)
    requires Inv(s) && 1 <= m.month <= 12 && SubmittedRooms(rooms) == MeteredRooms(s, p)
    ensures RoomsStart(s, m, rooms) <==> RoomsExpected(s, p, m, rooms)
  {
    hide Inv, ExpectedRoom, RoomStarts, SubmittedRooms, MeteredRooms;
    MeteredExactly(s, p);
    forall i | 0 <= i < |rooms|
      ensures rooms[i].roomId in s.rooms
      ensures RoomStarts(s, rooms[i].roomId, m, rooms[i].previous)
          <==> rooms[i].previous == ExpectedRoom(s, p, rooms[i].roomId, m)
    {
      IsSubmitted(rooms, i);
      RoomStartsExactly(s, p, rooms[i].roomId, m, rooms[i].previous);
    }
  }

  lemma RoomsAreRead(s: State, p: Id, rooms: seq<RoomSubmission>)
    ensures SubmittedRooms(rooms) == MeteredRooms(s, p) <==> ReadsMeteredRooms(s, p, rooms)
  {
    hide MeteredRooms, SubmittedRooms, HasMeter, Reads;
    MeteredExactly(s, p);
    forall r
      ensures r in SubmittedRooms(rooms) <==> Reads(rooms, r)
      ensures r in MeteredRooms(s, p) <==> HasMeter(s, p, r)
    {
      ReadExactly(rooms, r);
    }
    if ReadsMeteredRooms(s, p, rooms) {
      forall r
        ensures r in SubmittedRooms(rooms) <==> r in MeteredRooms(s, p)
      {
        assert HasMeter(s, p, r) <==> Reads(rooms, r);
      }
    }
  }

  lemma ReadExactly(rooms: seq<RoomSubmission>, r: Id)
    ensures r in SubmittedRooms(rooms) <==> Reads(rooms, r)
  {
  }

  // --------------------------------------------------------------------------- what is stored

  /** The last submission for the room. */
  ghost predicate LastFor(rooms: seq<RoomSubmission>, i: int) {
    0 <= i < |rooms| && forall j :: i < j < |rooms| ==> rooms[j].roomId != rooms[i].roomId
  }

  lemma {:induction false} LastCounts(rooms: seq<RoomSubmission>, i: int)
    requires LastFor(rooms, i)
    ensures rooms[i].roomId in SubmittedRooms(rooms)
    ensures SubmittedCurrent(rooms, rooms[i].roomId) == rooms[i].current
  {
    IsSubmitted(rooms, i);
    if i < |rooms| - 1 {
      var front := rooms[..|rooms| - 1];
      assert forall j :: 0 <= j < |front| ==> front[j] == rooms[j];
      LastCounts(front, i);
      SubmittedStep(rooms);
    }
  }

  /** The month's rows are the submitted ones; readings of other rooms, months and properties stay. */
  ghost predicate Stored(s: State, s': State, p: Id, x: Submission) {
    && s'.mainReadings
       == s.mainReadings[(p, x.month) := MainReading(x.mainPrevious, x.mainCurrent, x.mainCurrent - x.mainPrevious,
                                                     x.unitPrice)]
    && (forall i :: LastFor(x.rooms, i) ==>
          && (x.rooms[i].roomId, x.month) in s'.roomReadings
          && s'.roomReadings[(x.rooms[i].roomId, x.month)]
             == RoomReading(p, x.rooms[i].previous, x.rooms[i].current, x.rooms[i].current - x.rooms[i].previous))
    && (forall r, m: Month :: !(m == x.month && HasMeter(s, p, r)) ==>
          && ((r, m) in s'.roomReadings <==> (r, m) in s.roomReadings)
          && ((r, m) in s.roomReadings ==> s'.roomReadings[(r, m)] == s.roomReadings[(r, m)]))
    && s'.dues == s.dues && s'.rooms == s.rooms && s'.tenancies == s.tenancies
  }

  /** The month waits for its billing run, which knows the units. */
  ghost predicate RunWaits(s: State, s': State, p: Id, x: Submission) {
    var key, units := (p, x.month), x.mainCurrent - x.mainPrevious;
    && key in s'.runs && s'.runs == s.runs[key := s'.runs[key]]
    && var run := s'.runs[key];
    && run.status == RunPending && run.mainMeterUnits == units && run.unitPrice == x.unitPrice
    && run.privateRoomsUnits == RoomUnits(x.rooms) && run.sharedPoolUnits == units - RoomUnits(x.rooms)
  }

  lemma RunIsSet(s: State, p: Id, x: Submission)
    ensures RunWaits(s, StoreReadings(s, p, x), p, x)
    ensures var s' := StoreReadings(s, p, x); s'.dues == s.dues && s'.rooms == s.rooms && s'.tenancies == s.tenancies
  {
    hide StoreRooms, RoomUnits;
  }

  /** An accepted submission is stored as it is. */
  lemma SubmissionIsStored(s: State, p: Id, x: Submission, now: Month)
    requires Inv(s) && AcceptsReadings(s, p, x, now)
    ensures Stored(s, StoreReadings(s, p, x), p, x) && RunWaits(s, StoreReadings(s, p, x), p, x)
  {
    hide Inv, AcceptsReadings, StoreReadings, RunWaits, SubmittedRooms, SubmittedCurrent, MeteredRooms, RoomUnits,
         ExpectedRoom;
    var s' := StoreReadings(s, p, x);
    SubmissionScope(s, p, x, now);
    RunIsSet(s, p, x);
    MeteredExactly(s, p);
    forall i | LastFor(x.rooms, i)
      ensures (x.rooms[i].roomId, x.month) in s'.roomReadings
      ensures s'.roomReadings[(x.rooms[i].roomId, x.month)]
           == RoomReading(p, x.rooms[i].previous, x.rooms[i].current, x.rooms[i].current - x.rooms[i].previous)
    {
      LastIsStored(s, p, x, now, i);
    }
  }

  lemma MeteredExactly(s: State, p: Id)
    ensures forall r :: r in MeteredRooms(s, p) <==> HasMeter(s, p, r)
  {
  }

  lemma LastIsStored(s: State, p: Id, x: Submission, now: Month, i: int)
    requires Inv(s) && AcceptsReadings(s, p, x, now) && LastFor(x.rooms, i)
    ensures var key, s' := (x.rooms[i].roomId, x.month), StoreReadings(s, p, x);
            && key in s'.roomReadings
            && s'.roomReadings[key]
               == RoomReading(p, x.rooms[i].previous, x.rooms[i].current, x.rooms[i].current - x.rooms[i].previous)
  {
    hide Inv, StoreReadings, SubmittedRooms, SubmittedCurrent, MeteredRooms, RoomUnits, ExpectedRoom, ExpectedMain,
         ElectricityCollected, ValidSubmission;
    var r, s' := x.rooms[i].roomId, StoreReadings(s, p, x);
    LastCounts(x.rooms, i);
    StoredRoomRow(s, p, x, r);
    SubmittedAreMetered(s, p, x, now);
    SubmissionContinues(s, p, x, now);
    SubmissionScope(s, p, x, now);
    assert Continues(s, p, x.month, x.rooms[i]);
    AtHome(s, p, x, now, r);
  }

  lemma AtHome(s: State, p: Id, x: Submission, now: Month, r: Id)
    requires Inv(s) && AcceptsReadings(s, p, x, now) && r in MeteredRooms(s, p)
    ensures (r, x.month) in StoreReadings(s, p, x).roomReadings
    ensures StoreReadings(s, p, x).roomReadings[(r, x.month)].propertyId == p
  {
    hide Inv, StoreRooms, SubmittedRooms, MeteredRooms, RoomUnits, ExpectedRoom, ExpectedMain, ElectricityCollected,
         ValidSubmission;
    AcceptedRoomsGoForward(s, p, x, now);
    StoreRoomsAt(s.roomReadings, p, x.month, x.rooms);
    RoomReadingsHere(s, p, r);
  }

  // ------------------------------------------------------------------- since the installation

  /** Every series of readings begins with the installed reading of its meter, the main meters at 0. */
  ghost predicate FromInstallation(s: State) {
    (forall r, m :: RoomFromInstallation(s, r, m)) && (forall p, m :: MainFromInstallation(s, p, m))
  }

  ghost predicate RoomFromInstallation(s: State, r: Id, m: Month) {
    (r, m) in s.roomReadings && (forall b :: IsBefore(b, m) ==> (r, b) !in s.roomReadings) ==>
      r in s.rooms && s.roomReadings[(r, m)].previous == Installed(s.rooms[r])
  }

  ghost predicate MainFromInstallation(s: State, p: Id, m: Month) {
    (p, m) in s.mainReadings && (forall b :: IsBefore(b, m) ==> (p, b) !in s.mainReadings) ==>
      s.mainReadings[(p, m)].previous == 0.0
  }

  lemma SubmittedRoomFrom(s: State, q: Id, x: Submission, now: Month, r: Id, m: Month)
    requires Inv(s) && AcceptsReadings(s, q, x, now) && RoomFromInstallation(s, r, m)
    ensures RoomFromInstallation(StoreReadings(s, q, x), r, m)
  {
    hide Inv, AcceptsReadings, StoreReadings, MeteredRooms, IsBefore, Installed, ExpectedRoom;
    var s' := StoreReadings(s, q, x);
    SubmissionScope(s, q, x, now);
    SubmissionContinues(s, q, x, now);
    ValidMonth(s, q, x, now);
    MeteredExactly(s, q);
    if m == x.month && r in MeteredRooms(s, q) {
      RoomStartsExactly(s, q, r, m, s'.roomReadings[(r, m)].previous);
    }
  }

  lemma SubmittedMainFrom(s: State, q: Id, x: Submission, now: Month, p: Id, m: Month)
    requires AcceptsReadings(s, q, x, now) && MainFromInstallation(s, p, m)
    ensures MainFromInstallation(StoreReadings(s, q, x), p, m)
  {
    hide AcceptsReadings, StoreReadings, MeteredRooms, IsBefore, ExpectedMain, ExpectedRoom;
    var s' := StoreReadings(s, q, x);
    SubmissionScope(s, q, x, now);
    SubmissionContinues(s, q, x, now);
    ValidMonth(s, q, x, now);
    if m == x.month && p == q {
      MainStartsExactly(s, q, m, s'.mainReadings[(q, m)].previous);
    }
  }

  lemma SubmissionKeepsStart(s: State, q: Id, ownerId: Id, x: Submission, now: Month)
    requires Inv(s) && FromInstallation(s)
    ensures FromInstallation(SubmitAllReadings(s, q, ownerId, x, now).db)
  {
    hide Inv, AcceptsReadings, StoreReadings, RoomFromInstallation, MainFromInstallation;
    if AcceptsReadings(s, q, x, now) {
      forall r, m
        ensures RoomFromInstallation(StoreReadings(s, q, x), r, m)
      {
        SubmittedRoomFrom(s, q, x, now, r, m);
      }
      forall p, m
        ensures MainFromInstallation(StoreReadings(s, q, x), p, m)
      {
        SubmittedMainFrom(s, q, x, now, p, m);
      }
    }
  }

  lemma StepKeepsStart(s: State, step: Step)
    requires Inv(s) && Allowed(s, step) && FromInstallation(s)
    ensures FromInstallation(Apply(s, step))
  {
    hide Inv, NothingNegative, SubmitAllReadings, FromInstallation;
    if step.DoSubmitReadings? {
      SubmissionKeepsStart(s, step.propertyId, step.ownerId, step.submission, step.thisMonth);
    } else {
      hide Apply;
      OnlySubmissionsWriteReadings(s, step);
      StepKeepsRooms(s, step);
      SameStart(s, Apply(s, step));
    }
  }

  lemma SameStart(s: State, s': State)
    requires FromInstallation(s) && SameStoredReadings(s, s') && SameRooms(s.rooms, s'.rooms)
    ensures FromInstallation(s')
  {
    hide IsBefore;
    forall r, m
      ensures RoomFromInstallation(s', r, m)
    {
      assert RoomFromInstallation(s, r, m);
    }
    forall p, m
      ensures MainFromInstallation(s', p, m)
    {
      assert MainFromInstallation(s, p, m);
    }
  }

  /** In every state of every run from an unused database, each series begins with its meter's installed reading. */
  lemma {:induction false} RunsStartAtInstallation(states: seq<State>, steps: seq<Step>, i: nat)
    requires IsRun(states, steps) && Safety.Unused(states[0]) && i < |states|
    ensures FromInstallation(states[i])
    decreases i
  {
    hide Inv, Apply, Allowed, FromInstallation;
    Safety.UnusedInv(states[0]);
    RunsKeepInv(states, steps);
    if i == 0 {
      NothingRead(states[0]);
    } else {
      RunsStartAtInstallation(states, steps, i - 1);
      StepKeepsStart(states[i - 1], steps[i - 1]);
    }
  }

  lemma NothingRead(s: State)
    requires Safety.Unused(s)
    ensures FromInstallation(s)
  {
  }

  /** What a room has consumed in all months is its last reading beyond the installed one. */
  ghost predicate CountsSinceInstallation(s: State, r: Id, first: int, last: int) {
    && r in s.rooms && SeriesOk(RoomSeries(s, r), first, last) && (r, MonthAt(last)) in s.roomReadings
    && UnitsSum(RoomSeries(s, r), first, last)
       == s.roomReadings[(r, MonthAt(last))].current - Installed(s.rooms[r])
  }

  /**
   In every state of a run from an unused database with submissions in order, the units of all months together are what
   the meters show by now: the main meter its last reading, each metered room its last reading beyond the installed one.
   */
  lemma ConsumptionIsCounted(states: seq<State>, steps: seq<Step>, p: Id, i: nat) returns (first: int, last: int)
    requires IsRun(states, steps) && Safety.Unused(states[0]) && i < |states|
    requires AllInOrder(states, steps, p)
    ensures var s := states[i];
            NoReadings(s, p)
            || (&& ChainOk(s, p, first, last) && (p, MonthAt(last)) in s.mainReadings
                && UnitsSum(MainSeries(s, p), first, last) == s.mainReadings[(p, MonthAt(last))].current
                && forall r :: HasMeter(s, p, r) ==> CountsSinceInstallation(s, r, first, last))
  {
    hide Apply, Allowed, InOrder, Safety.Unused, NoReadings, ChainOk, MeteredRooms, RoomTelescopes, UnitsSum, MonthAt,
         MainSeries, HasMeter, CountsSinceInstallation, FromInstallation;
    first, last := MetersTelescope(states, steps, p, i);
    RunsStartAtInstallation(states, steps, i);
    var s := states[i];
    if !NoReadings(s, p) {
      MainStartsAtZero(s, p, first, last);
      MeteredExactly(s, p);
      forall r | HasMeter(s, p, r)
        ensures CountsSinceInstallation(s, r, first, last)
      {
        RoomCounts(s, p, r, first, last);
      }
    }
  }

  lemma MonthBeforeFirst(i: int, b: Month)
    requires IsBefore(b, MonthAt(i))
    ensures b == MonthAt(i - 1)
  {
    hide MonthAt;
    MonthIndexing(i, b);
    ValidMonthAt(i);
    OneMonthBefore(b, MonthAt(i));
  }

  lemma ValidMonthAt(i: int)
    ensures 1 <= MonthAt(i).month <= 12
  {
  }

  lemma MainStartsAtZero(s: State, p: Id, first: int, last: int)
    requires FromInstallation(s) && ChainOk(s, p, first, last) && (p, MonthAt(first)) in s.mainReadings
    ensures s.mainReadings[(p, MonthAt(first))].previous == 0.0
  {
    hide MainSeries, RoomSeries, MeteredRooms, MonthAt, IsBefore;
    assert MainFromInstallation(s, p, MonthAt(first));
    forall b | IsBefore(b, MonthAt(first))
      ensures (p, b) !in s.mainReadings
    {
      MonthBeforeFirst(first, b);
      SeriesMonths(MainSeries(s, p), first, last);
      MainSeriesAt(s, p, b);
    }
  }

  lemma RoomCounts(s: State, p: Id, r: Id, first: int, last: int)
    requires FromInstallation(s) && RoomTelescopes(s, r, first, last)
    ensures CountsSinceInstallation(s, r, first, last)
  {
    hide RoomSeries, MonthAt, IsBefore, UnitsSum, SeriesOk;
    assert RoomFromInstallation(s, r, MonthAt(first));
    forall b | IsBefore(b, MonthAt(first))
      ensures (r, b) !in s.roomReadings
    {
      MonthBeforeFirst(first, b);
      SeriesMonths(RoomSeries(s, r), first, last);
      RoomSeriesAt(s, r, b);
    }
  }
}
