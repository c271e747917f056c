/** The electricity services, statement by statement: validation loops, upserts and the billing run. */
module ElectricityService {
  import opened Admission
  import opened Allocation
  import opened DueRules
  import opened DueService
  import opened ElectricityProofs
  import opened ElectricityRules
  import opened Invariants
  import opened Queries
  import opened Readings
  import opened RunShares
  import opened Sums
  import opened Tables
  import opened Text

  // -------------------------------------------------------------------- readings

  /** The previous readings that a submission must repeat, for the main meter and room by room. */
  method GetExpectedPreviousReadings(db: Database, propertyId: Id, month: Month)
    returns (mainPrevious: real, roomPrevious: map<Id, real>)
    ensures mainPrevious == ExpectedMain(db.Snapshot(), propertyId, month)
    ensures roomPrevious.Keys == MeteredRooms(db.Snapshot(), propertyId)
    ensures forall r :: r in roomPrevious ==>
              r in db.rooms && roomPrevious[r] == ExpectedRoom(db.Snapshot(), propertyId, r, month)
    ensures Inv(db.Snapshot()) && 1 <= month.month <= 12 ==>
              && MainStarts(db.Snapshot(), propertyId, month, mainPrevious)
              && (forall r :: r in roomPrevious <==> HasMeter(db.Snapshot(), propertyId, r))
              && forall r :: r in roomPrevious ==> RoomStarts(db.Snapshot(), r, month, roomPrevious[r])
  {
    hide Inv, MainStarts, RoomStarts;
    var s, prev := db.Snapshot(), PreviousMonth(month);
    mainPrevious :=
      if (propertyId, month) in db.mainReadings then db.mainReadings[(propertyId, month)].previous
      else if (propertyId, prev) in db.mainReadings then db.mainReadings[(propertyId, prev)].current
      else 0.0;
    roomPrevious := map[];
    var rooms := FindMany(MeteredRooms(s, propertyId));
    for i := 0 to |rooms|
      invariant roomPrevious.Keys == set j | 0 <= j < i :: rooms[j]
      invariant forall r :: r in roomPrevious ==>
                  r in db.rooms && roomPrevious[r] == ExpectedRoom(s, propertyId, r, month)
    {
      var roomId := rooms[i];
      assert roomId in MeteredRooms(s, propertyId);
      var expected :=
        if HasRoomReading(s, propertyId, roomId, month) then db.roomReadings[(roomId, month)].previous
        else if HasRoomReading(s, propertyId, roomId, prev) then db.roomReadings[(roomId, prev)].current
        else if db.rooms[roomId].initialMeterReading.Some? then db.rooms[roomId].initialMeterReading.value
        else 0.0;
      roomPrevious := roomPrevious[roomId := expected];
    }
    if Inv(s) && 1 <= month.month <= 12 {
      ExpectedAreStarts(s, propertyId, month);
    }
  }

  lemma ExpectedAreStarts(s: State, propertyId: Id, month: Month)
    requires Inv(s) && 1 <= month.month <= 12
    ensures MainStarts(s, propertyId, month, ExpectedMain(s, propertyId, month))
    ensures forall r :: r in MeteredRooms(s, propertyId) <==> HasMeter(s, propertyId, r)
    ensures forall r :: r in MeteredRooms(s, propertyId) ==>
              r in s.rooms && RoomStarts(s, r, month, ExpectedRoom(s, propertyId, r, month))
  {
    hide Inv, MainStarts, RoomStarts, ExpectedMain, ExpectedRoom;
    MainStartsExactly(s, propertyId, month, ExpectedMain(s, propertyId, month));
    forall r | r in MeteredRooms(s, propertyId)
      ensures r in s.rooms && RoomStarts(s, r, month, ExpectedRoom(s, propertyId, r, month))
    {
      RoomStartsExactly(s, propertyId, r, month, ExpectedRoom(s, propertyId, r, month));
    }
  }

  /** One reading for each metered room, each continuing its meter. */
  ghost predicate RoomsAccepted(s: State, propertyId: Id, month: Month, rooms: seq<RoomSubmission>) {
    && SubmittedRooms(rooms) == MeteredRooms(s, propertyId)
    && forall i :: 0 <= i < |rooms| ==> rooms[i].roomId in s.rooms && Continues(s, propertyId, month, rooms[i])
  }

  method CheckRooms(db: Database, propertyId: Id, month: Month, rooms: seq<RoomSubmission>, roomPrevious: map<Id, real>)
    returns (ok: bool)
    requires roomPrevious.Keys == MeteredRooms(db.Snapshot(), propertyId)
    requires forall r :: r in roomPrevious ==>
               r in db.rooms && roomPrevious[r] == ExpectedRoom(db.Snapshot(), propertyId, r, month)
    ensures ok <==> RoomsAccepted(db.Snapshot(), propertyId, month, rooms)
  {
    hide ExpectedRoom, MeteredRooms;
    var s := db.Snapshot();
    var submittedRoomIds, expectedRoomIds := SubmittedRooms(rooms), roomPrevious.Keys;
    if |submittedRoomIds| != |expectedRoomIds| {
      return false;
    }
    if !(expectedRoomIds <= submittedRoomIds) {
      return false;
    }
    for i := 0 to |rooms|
      invariant forall j :: 0 <= j < i ==>
                  rooms[j].roomId in expectedRoomIds && rooms[j].roomId in s.rooms
                      && Continues(s, propertyId, month, rooms[j])
    {
      var reading := rooms[i];
      assert reading.roomId in submittedRoomIds;
      if reading.roomId !in expectedRoomIds {
        return false;
      }
      if reading.previous != roomPrevious[reading.roomId] {
        return false;
      }
      var unitConsumed := reading.current - reading.previous;
      if unitConsumed < 0.0 {
        return false;
      }
    }
    assert submittedRoomIds <= expectedRoomIds;
    return true;
  }

  method SumRoomUnits(rooms: seq<RoomSubmission>) returns (totalRoomUnits: real)
    ensures totalRoomUnits == RoomUnits(rooms)
  {
    totalRoomUnits := 0.0;
    for i := 0 to |rooms|
      invariant totalRoomUnits == RoomUnits(rooms[..i])
    {
      assert rooms[..i + 1][..i] == rooms[..i];
      totalRoomUnits := totalRoomUnits + (rooms[i].current - rooms[i].previous);
    }
    assert rooms[..|rooms|] == rooms;
  }

  /** Whether the readings may be stored, and how many units the rooms consumed. */
  method ValidateReadings(db: Database, propertyId: Id, x: Submission, now: Month) returns (ok: bool,
          totalRoomUnits: real)
    requires ValidSubmission(x)
    ensures ok <==> AcceptsReadings(db.Snapshot(), propertyId, x, now)
    ensures totalRoomUnits == RoomUnits(x.rooms)
  {
    hide ExpectedMain, ExpectedRoom, MeteredRooms, SubmittedRooms, RoomUnits, Continues, ElectricityCollected;
    totalRoomUnits := SumRoomUnits(x.rooms);
    if After(x.month, now) {
      return false, totalRoomUnits;
    }
    var mainPrevious, roomPrevious := GetExpectedPreviousReadings(db, propertyId, x.month);
    if x.mainPrevious != mainPrevious {
      return false, totalRoomUnits;
    }
    var mainUnitConsumed := x.mainCurrent - x.mainPrevious;
    if mainUnitConsumed < 0.0 {
      return false, totalRoomUnits;
    }
    var roomsOk := CheckRooms(db, propertyId, x.month, x.rooms, roomPrevious);
    if !roomsOk {
      return false, totalRoomUnits;
    }
    if totalRoomUnits > mainUnitConsumed {
      return false, totalRoomUnits;
    }
    return !ElectricityCollected(db.Snapshot(), propertyId, x.month), totalRoomUnits;
  }

  method UpsertRoomReadings(db: Database, propertyId: Id, month: Month, rooms: seq<RoomSubmission>)
    modifies db`roomReadings
    ensures db.Snapshot() == old(db.Snapshot()).(roomReadings := StoreRooms(old(db.roomReadings), propertyId, month,
        rooms))
  {
    for i := 0 to |rooms|
      invariant db.Snapshot() == old(db.Snapshot()).(
                  roomReadings := StoreRooms(old(db.roomReadings), propertyId, month, rooms[..i]))
    {
      assert rooms[..i + 1][..i] == rooms[..i];
      var r, key := rooms[i], (rooms[i].roomId, month);
      var unitConsumed := r.current - r.previous;
      if key in db.roomReadings {
        db.roomReadings :=
          db.roomReadings[key := db.roomReadings[key].(previous := r.previous, current := r.current,
              unitConsumed := unitConsumed)];
      } else {
        db.roomReadings := db.roomReadings[key := RoomReading(propertyId, r.previous, r.current, unitConsumed)];
      }
    }
    assert rooms[..|rooms|] == rooms;
  }

  method UpsertReadings(db: Database, propertyId: Id, x: Submission, totalRoomUnits: real)
    requires totalRoomUnits == RoomUnits(x.rooms)
    modifies db`mainReadings, db`roomReadings, db`runs
    ensures db.Snapshot() == StoreReadings(old(db.Snapshot()), propertyId, x)
  {
    hide StoreRooms, RoomUnits;
    var key, mainUnitConsumed := (propertyId, x.month), x.mainCurrent - x.mainPrevious;
    db.mainReadings := db.mainReadings[key := MainReading(x.mainPrevious, x.mainCurrent, mainUnitConsumed,
        x.unitPrice)];
    UpsertRoomReadings(db, propertyId, x.month, x.rooms);
    var sharedPoolUnits := mainUnitConsumed - totalRoomUnits;
    if key in db.runs {
      var run := db.runs[key];
      db.runs := db.runs[key := run.(status := RunPending, mainMeterUnits := mainUnitConsumed,
          privateRoomsUnits := totalRoomUnits,
                                     sharedPoolUnits := sharedPoolUnits, unitPrice := x.unitPrice)];
    } else {
      db.runs := db.runs[key := BillingRun(RunPending, mainUnitConsumed, totalRoomUnits, sharedPoolUnits, x.unitPrice,
          None, None)];
    }
  }

  method SubmitAllReadings(db: Database, propertyId: Id, ownerId: Id, x: Submission, now: Month) returns (r: Result<()>)
    requires ValidSubmission(x)
    modifies db`mainReadings, db`roomReadings, db`runs
    ensures Reply(db.Snapshot(), r) == ElectricityRules.SubmitAllReadings(old(db.Snapshot()), propertyId, ownerId, x,
        now)
    ensures r.Err? ==> r == Err(if IsOwner(old(db.Snapshot()), ownerId, propertyId) then BadRequest else NotFound)
    ensures r.Err? ==> db.Snapshot() == old(db.Snapshot())
    ensures Inv(old(db.Snapshot())) ==>
              && Inv(db.Snapshot())
              && (r.Ok? <==> && IsOwner(old(db.Snapshot()), ownerId, propertyId) && WellFormed(x)
                             && FitsRows(old(db.Snapshot()), propertyId, x)
                             && NothingCollected(old(db.Snapshot()), propertyId, x.month)
                             && (|| x.month.year < now.year
                                 || (x.month.year == now.year && x.month.month <= now.month)))
              && (r.Ok? ==> && Stored(old(db.Snapshot()), db.Snapshot(), propertyId, x)
                            && RunWaits(old(db.Snapshot()), db.Snapshot(), propertyId, x))
  {
    hide AcceptsReadings, StoreReadings, RoomUnits, Inv, WellFormed, FitsRows, NothingCollected, Stored, RunWaits;
    ghost var s := db.Snapshot();
    if Inv(s) {
      SubmitKeepsInv(s, propertyId, ownerId, x, now);
      AcceptedExactly(s, propertyId, x, now);
      if AcceptsReadings(s, propertyId, x, now) {
        SubmissionIsStored(s, propertyId, x, now);
      }
    }
    if !Owns(db.Snapshot(), ownerId, propertyId) {
      return Err(NotFound);
    }
    var ok, totalRoomUnits := ValidateReadings(db, propertyId, x, now);
    if !ok {
      return Err(BadRequest);
    }
    UpsertReadings(db, propertyId, x, totalRoomUnits);
    return Ok(());
  }

  // ----------------------------------------------------------------- billing run

  /** The room readings added up in the order in which they were loaded. */
  method SumReadings(readings: map<Id, real>) returns (privateRoomsUnits: real)
    ensures privateRoomsUnits == Total(readings)
  {
    hide Total;
    var loaded := FindMany(readings.Keys);
    privateRoomsUnits := 0.0;
    ghost var seen: set<Id> := {};
    NothingSeen(readings);
    for i := 0 to |loaded|
      invariant seen == set j | 0 <= j < i :: loaded[j]
      invariant privateRoomsUnits == Total(Restrict(readings, seen))
    {
      var roomId := loaded[i];
      assert roomId in readings && roomId !in seen;
      TotalInsert(Restrict(readings, seen), roomId, readings[roomId]);
      assert Restrict(readings, seen + {roomId}) == Restrict(readings, seen)[roomId := readings[roomId]];
      privateRoomsUnits := privateRoomsUnits + readings[roomId];
      seen := seen + {roomId};
    }
    assert seen == readings.Keys;
    assert Restrict(readings, seen) == readings;
  }

  lemma NothingSeen(readings: map<Id, real>)
    ensures Total(Restrict(readings, {})) == 0.0
  {
    assert Restrict(readings, {}) == map[];
  }

  method CreateBillDues(db: Database, bills: seq<Allocation>, month: Month)
    modifies db`nextId, db`dues
    ensures db.Snapshot() == InsertDues(old(db.Snapshot()), BillDues(bills, month))
  {
    hide InsertDue;
    ghost var dues := BillDues(bills, month);
    for i := 0 to |bills|
      invariant db.Snapshot() == InsertDues(old(db.Snapshot()), dues[..i])
    {
      assert dues[..i + 1][..i] == dues[..i];
      var _ := CreateDue(db, BillDue(bills[i], month));
    }
    assert dues[..|bills|] == dues;
  }

  /** Every metered room has a reading. */
  method ReadingsComplete(meteredRooms: seq<Id>, readings: map<Id, real>) returns (complete: bool)
    ensures complete <==> forall i :: 0 <= i < |meteredRooms| ==> meteredRooms[i] in readings
  {
    for i := 0 to |meteredRooms|
      invariant forall j :: 0 <= j < i ==> meteredRooms[j] in readings
    {
      if meteredRooms[i] !in readings {
        return false;
      }
    }
    return true;
  }

  /** Replaces the unpaid dues by the new bills and completes the run, in one transaction. */
  method ReplaceBills(db: Database, propertyId: Id, month: Month, bills: seq<Allocation>,
          run: BillingRun) returns (ok: bool)
    modifies db`nextId, db`dues, db`transactions, db`runs
    ensures ok <==> forall d :: d in old(db.dues) && BillsMonth(old(db.dues)[d], propertyId, month)
                                && (old(db.dues)[d].status == Unpaid || old(db.dues)[d].status == Overdue) ==>
                                  !Referenced(old(db.Snapshot()), d)
    ensures db.Snapshot()
            == if ok then InsertDues(RemoveDues(old(db.Snapshot()),
                ReplacedDues(old(db.Snapshot()), propertyId, month)),
                                     BillDues(bills, month)).(runs := old(db.runs)[(propertyId, month) := run])
               else old(db.Snapshot())
  {
    ReplacedExactly(db.Snapshot(), propertyId, month);
    hide ReplacedDues, Referenced, RemoveDues, InsertDues;
    RemovalKeepsRuns(db.Snapshot(), ReplacedDues(db.Snapshot(), propertyId, month));
    ok := DeleteDues(db, ReplacedDues(db.Snapshot(), propertyId, month));
    if !ok {
      return;
    }
    CreateBillDues(db, bills, month);
    db.runs := db.runs[(propertyId, month) := run];
  }

  /** The unpaid and the overdue electricity dues of the month are replaced. */
  lemma ReplacedExactly(s: State, propertyId: Id, month: Month)
    ensures forall d :: d in ReplacedDues(s, propertyId, month) <==>
              && d in s.dues && BillsMonth(s.dues[d], propertyId, month)
              && (s.dues[d].status == Unpaid || s.dues[d].status == Overdue)
  {
  }

  lemma RemovalKeepsRuns(s: State, gone: set<Id>)
    ensures RemoveDues(s, gone).runs == s.runs
  {
  }

  /** The readings are there and nothing was collected, but a due that the run would replace is on a payment line. */
  ghost predicate PaidOnline(s: State, propertyId: Id, month: Month) {
    && RunnableReadings(s, propertyId, month) && !ElectricityCollected(s, propertyId, month)
    && exists d :: d in ReplacedDues(s, propertyId, month) && Referenced(s, d)
  }

  lemma RunRefusals(s: State, propertyId: Id, month: Month, order: seq<Id>, roomOrder: seq<Id>)
    requires QueryOrders(s, propertyId, order, roomOrder)
    requires ElectricityRules.RunBilling(s, propertyId, month, order, roomOrder).result.Err?
    ensures var error := ElectricityRules.RunBilling(s, propertyId, month, order, roomOrder).result.error;
            && (error == NotFound <==> propertyId !in s.owners)
            && (error == NotFound || error == BadRequest || error == ConstraintViolation)
            && (propertyId in s.owners ==> (error == ConstraintViolation <==> PaidOnline(s, propertyId, month)))
  {
    hide IsCompleted, ElectricityCollected, ReplacedDues, Referenced, RemoveDues, InsertDues, RunInputs,
         RunnableReadings;
  }

  /**
   A run changes nothing, or, from a sound database, it bills the month. It is accepted exactly if the month is
   completed already, or its readings are there and nothing of it was collected or is on a payment line.
   */
  ghost predicate BilledOrLeft(s: State, s': State, propertyId: Id, month: Month, r: Result<Option<seq<Allocation>>>) {
    && (r.Err? || r.value.None? ==> s' == s)
    && (r.Ok? ==> (r.value.None? <==> IsCompleted(s, propertyId, month)))
    && (Inv(s) ==> Inv(s'))
    && (r.Err? ==> (r.error == NotFound <==> propertyId !in s.owners)
                   && (r.error == NotFound || r.error == BadRequest || r.error == ConstraintViolation))
    && (r.Err? && propertyId in s.owners ==> (r.error == ConstraintViolation <==> PaidOnline(s, propertyId, month)))
    && (Inv(s) && r.Ok? && r.value.Some? ==> Billed(s, s', propertyId, month, r.value.value))
    && (Inv(s) ==>
          (r.Ok? <==> && propertyId in s.owners
                      && (|| ((propertyId, month) in s.runs && s.runs[(propertyId, month)].status == Completed)
                          || ((propertyId, month) in s.mainReadings && MonthIsOpen(s, propertyId, month)))))
  }

  lemma RunOutcome(s: State, propertyId: Id, month: Month, order: seq<Id>, roomOrder: seq<Id>)
    requires QueryOrders(s, propertyId, order, roomOrder)
    ensures var r := ElectricityRules.RunBilling(s, propertyId, month, order, roomOrder);
            BilledOrLeft(s, r.db, propertyId, month, r.result)
  {
    hide Inv, ElectricityRules.RunBilling, IsCompleted, MonthIsOpen, QueryOrders, Billed, PaidOnline;
    var r := ElectricityRules.RunBilling(s, propertyId, month, order, roomOrder);
    AnsweredOnce(s, propertyId, month, order, roomOrder);
    if r.result.Err? {
      RunRefusals(s, propertyId, month, order, roomOrder);
    }
    if Inv(s) {
      RunAcceptedExactly(s, propertyId, month, order, roomOrder);
      RunBillingKeepsInv(s, propertyId, month, order, roomOrder);
    }
    if r.result.Err? || IsCompleted(s, propertyId, month) {
      RefusedRun(s, propertyId, month, order, roomOrder);
    } else if Inv(s) {
      RunBillsTheMonth(s, propertyId, month, order, roomOrder);
    }
  }

  lemma AnsweredOnce(s: State, propertyId: Id, month: Month, order: seq<Id>, roomOrder: seq<Id>)
    requires QueryOrders(s, propertyId, order, roomOrder)
    ensures var r := ElectricityRules.RunBilling(s, propertyId, month, order, roomOrder).result;
            r.Ok? ==> (r.value.None? <==> IsCompleted(s, propertyId, month))
  {
    hide IsCompleted, ElectricityCollected, ReplacedDues, Referenced, RemoveDues, InsertDues, RunInputs;
  }

  /** order and roomOrder are the orders in which the active tenancies and the metered rooms were loaded. */
  method RunBilling(db: Database, propertyId: Id, month: Month)
    returns (r: Result<Option<seq<Allocation>>>, ghost order: seq<Id>, ghost roomOrder: seq<Id>)
    modifies db`nextId, db`dues, db`transactions, db`runs
    ensures QueryOrders(old(db.Snapshot()), propertyId, order, roomOrder)
    ensures Reply(db.Snapshot(), r) == ElectricityRules.RunBilling(old(db.Snapshot()), propertyId, month, order,
        roomOrder)
    ensures BilledOrLeft(old(db.Snapshot()), db.Snapshot(), propertyId, month, r)
  {
    hide IsCompleted, ElectricityCollected, MeteredRooms, ActiveTenancies, ReadingByRoom, Total, Allocations,
         ReplacedDues,
         Referenced, RemoveDues, InsertDues, ActiveRows, CompletedRun, Lists, BilledOrLeft;
    ghost var s := db.Snapshot();
    forall tenancies, rooms | QueryOrders(s, propertyId, tenancies, rooms)
      ensures var reply := ElectricityRules.RunBilling(s, propertyId, month, tenancies, rooms);
              BilledOrLeft(s, reply.db, propertyId, month, reply.result)
    {
      RunOutcome(s, propertyId, month, tenancies, rooms);
    }
    order := SomeOrder(ActiveTenancies(s, propertyId));
    roomOrder := SomeOrder(MeteredRooms(s, propertyId));
    if propertyId !in db.owners {
      return Err(NotFound), order, roomOrder;
    }
    if IsCompleted(db.Snapshot(), propertyId, month) {
      return Ok(None), order, roomOrder;
    }
    if ElectricityCollected(db.Snapshot(), propertyId, month) {
      return Err(BadRequest), order, roomOrder;
    }
    if (propertyId, month) !in db.mainReadings {
      return Err(BadRequest), order, roomOrder;
    }
    var mainMeter, readings := db.mainReadings[(propertyId, month)], ReadingByRoom(db.Snapshot(), propertyId, month);
    var meteredRooms := FindMany(MeteredRooms(db.Snapshot(), propertyId));
    roomOrder := meteredRooms;
    var complete := ReadingsComplete(meteredRooms, readings);
    ListedRooms(meteredRooms, MeteredRooms(s, propertyId), readings);
    if !complete {
      return Err(BadRequest), order, roomOrder;
    }
    var privateRoomsUnits := SumReadings(readings);
    var rawSharedPoolUnits := mainMeter.unitConsumed - privateRoomsUnits;
    if rawSharedPoolUnits < 0.0 {
      return Err(BadRequest), order, roomOrder;
    }
    var activeTenancies := FindMany(ActiveTenancies(db.Snapshot(), propertyId));
    order := activeTenancies;
    ActiveExist(s, propertyId, activeTenancies);
    var inputs := Inputs(ActiveRows(db.Snapshot(), activeTenancies), meteredRooms, readings, rawSharedPoolUnits,
                         mainMeter.unitPrice, month.month, month.year);
    var engine := CalculateAllocations(inputs);
    ReplacedExactly(s, propertyId, month);
    var ok := ReplaceBills(db, propertyId, month, engine.allocations,
        CompletedRun(mainMeter, privateRoomsUnits, engine));
    return if ok then Ok(Some(engine.allocations)) else Err(ConstraintViolation), order, roomOrder;
  }

  lemma ListedRooms(rooms: seq<Id>, ids: set<Id>, readings: map<Id, real>)
    requires Lists(rooms, ids)
    ensures (forall i :: 0 <= i < |rooms| ==> rooms[i] in readings) <==> forall r :: r in ids ==> r in readings
  {
    if forall i :: 0 <= i < |rooms| ==> rooms[i] in readings {
      forall r | r in ids
        ensures r in readings
      {
        assert r in rooms;
      }
    } else {
      var i :| 0 <= i < |rooms| && rooms[i] !in readings;
      assert rooms[i] in rooms;
    }
  }

  lemma ActiveExist(s: State, propertyId: Id, order: seq<Id>)
    requires Lists(order, ActiveTenancies(s, propertyId))
    ensures forall t :: t in order ==> t in s.tenancies
  {
  }
}
