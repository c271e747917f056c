/** Readings and billing runs keep the invariant; what a run bills in a reachable database, and when it is refused. */
module ElectricityProofs {
  import opened Allocation
  import opened DueRules
  import opened ElectricityRules
  import opened ElectricityUtils
  import opened Invariants
  import opened Numbers
  import opened Queries
  import opened Sums
  import opened Tables
  import opened Text

  // ---------------------------------------------------------- storing readings

  ghost predicate ForwardRooms(rooms: seq<RoomSubmission>) {
    forall i :: 0 <= i < |rooms| ==> rooms[i].previous <= rooms[i].current
  }

  /** The units that the stored readings of some rooms show. */
  function UnitsOf(readings: map<(Id, Month), RoomReading>, rooms: set<Id>, month: Month): map<Id, real> {
    map r | r in rooms && (r, month) in readings :: readings[(r, month)].unitConsumed
  }

  lemma SubmittedStep(rooms: seq<RoomSubmission>)
    requires rooms != []
    ensures SubmittedRooms(rooms) == SubmittedRooms(rooms[..|rooms| - 1]) + {rooms[|rooms| - 1].roomId}
  {
    var front := rooms[..|rooms| - 1];
    forall r
      ensures r in SubmittedRooms(rooms) <==> r in SubmittedRooms(front) + {rooms[|rooms| - 1].roomId}
    {
      if r in SubmittedRooms(front) {
        var i :| 0 <= i < |front| && front[i].roomId == r;
        assert rooms[i].roomId == r;
      }
      if r in SubmittedRooms(rooms) && r != rooms[|rooms| - 1].roomId {
        var i :| 0 <= i < |rooms| && rooms[i].roomId == r;
        assert front[i].roomId == r;
      }
    }
  }

  /** Storing touches exactly the submitted rooms of the month, each with a reading that does not run backwards. */
  lemma {:induction false} StoreRoomsAt(readings: map<(Id, Month), RoomReading>, propertyId: Id, month: Month,
          rooms: seq<RoomSubmission>)
    requires ForwardRooms(rooms)
    ensures var after := StoreRooms(readings, propertyId, month, rooms);
            && (forall k :: k in after <==> k in readings || (k.1 == month && k.0 in SubmittedRooms(rooms)))
            && (forall k :: k in readings && !(k.1 == month && k.0 in SubmittedRooms(rooms)) ==>
                after[k] == readings[k])
            && (forall r :: r in SubmittedRooms(rooms) ==>
                  && after[(r, month)].propertyId
                     == (if (r, month) in readings then readings[(r, month)].propertyId else propertyId)
                  && after[(r, month)].unitConsumed == after[(r, month)].current - after[(r, month)].previous >= 0.0)
  {
    if rooms == [] {
      assert SubmittedRooms(rooms) == {};
    } else {
      var front := rooms[..|rooms| - 1];
      SubmittedStep(rooms);
      StoreRoomsAt(readings, propertyId, month, front);
    }
  }

  lemma NoUnits(readings: map<(Id, Month), RoomReading>, month: Month)
    ensures UnitsOf(readings, {}, month) == map[]
  {
  }

  lemma UnitsNonNegative(readings: map<(Id, Month), RoomReading>, rooms: set<Id>, month: Month, r: Id)
    requires r in UnitsOf(readings, rooms, month)
    requires readings[(r, month)].unitConsumed >= 0.0
    ensures UnitsOf(readings, rooms, month)[r] >= 0.0
    ensures r in rooms
  {
  }

  lemma UnitsStep(readings: map<(Id, Month), RoomReading>, rooms: set<Id>, month: Month, r: RoomSubmission, owner: Id)
    ensures UnitsOf(readings[(r.roomId, month) := RoomReading(owner, r.previous, r.current, r.current - r.previous)],
                    rooms + {r.roomId}, month)
            == UnitsOf(readings, rooms, month)[r.roomId := r.current - r.previous]
    ensures r.roomId in UnitsOf(readings, rooms, month) ==> r.roomId in rooms && (r.roomId, month) in readings
  {
  }

  /** What is stored never exceeds what was submitted, even if a room was listed twice. */
  lemma {:induction false} StoredUnitsBound(readings: map<(Id, Month), RoomReading>, propertyId: Id, month: Month,
          rooms: seq<RoomSubmission>)
    requires ForwardRooms(rooms)
    ensures Total(UnitsOf(StoreRooms(readings, propertyId, month, rooms), SubmittedRooms(rooms), month))
            <= RoomUnits(rooms)
  {
    hide Total, UnitsOf, StoreRooms, SubmittedRooms;
    if rooms == [] {
      NothingSubmitted();
      NoUnits(StoreRooms(readings, propertyId, month, rooms), month);
      EmptyTotal<Id>();
    } else {
      var front, last := rooms[..|rooms| - 1], rooms[|rooms| - 1];
      var stored := StoreRooms(readings, propertyId, month, front);
      StoredUnitsBound(readings, propertyId, month, front);
      StoreRoomsAt(readings, propertyId, month, front);
      SubmittedStep(rooms);
      StoreStep(readings, propertyId, month, rooms);
      var before := UnitsOf(stored, SubmittedRooms(front), month);
      UnitsStep(stored, SubmittedRooms(front), month, last, StoredOwner(stored, propertyId, month, last.roomId));
      if last.roomId in before {
        UnitsNonNegative(stored, SubmittedRooms(front), month, last.roomId);
        TotalUpdate(before, last.roomId, last.current - last.previous);
      } else {
        TotalInsert(before, last.roomId, last.current - last.previous);
      }
    }
  }

  lemma NothingSubmitted()
    ensures SubmittedRooms([]) == {}
  {
  }

  function StoredOwner(readings: map<(Id, Month), RoomReading>, propertyId: Id, month: Month, roomId: Id): Id {
    if (roomId, month) in readings then readings[(roomId, month)].propertyId else propertyId
  }

  lemma StoreStep(readings: map<(Id, Month), RoomReading>, propertyId: Id, month: Month, rooms: seq<RoomSubmission>)
    requires rooms != []
    ensures var stored, r := StoreRooms(readings, propertyId, month, rooms[..|rooms| - 1]), rooms[|rooms| - 1];
            StoreRooms(readings, propertyId, month, rooms)
            == stored[(r.roomId, month) := RoomReading(StoredOwner(stored, propertyId, month, r.roomId),
                                                       r.previous, r.current, r.current - r.previous)]
  {
  }

  lemma AcceptedRoomsGoForward(s: State, propertyId: Id, x: Submission, now: Month)
    requires AcceptsReadings(s, propertyId, x, now)
    ensures ForwardRooms(x.rooms)
  {
  }

  /** After a submission the month's room readings are exactly the stored ones of the submitted rooms. */
  lemma SubmittedReadings(s: State, propertyId: Id, x: Submission, now: Month)
    requires ReadingsOk(s) && AcceptsReadings(s, propertyId, x, now)
    ensures ReadingByRoom(StoreReadings(s, propertyId, x), propertyId, x.month)
            == UnitsOf(StoreRooms(s.roomReadings, propertyId, x.month, x.rooms), SubmittedRooms(x.rooms), x.month)
  {
    hide Total, RawPool, ReadingByRoom, StoreRooms, SubmittedRooms, RoomUnits;
    AcceptedRoomsGoForward(s, propertyId, x, now);
    StoreRoomsAt(s.roomReadings, propertyId, x.month, x.rooms);
    var s' := StoreReadings(s, propertyId, x);
    ReadingKeys(s', propertyId, x.month);
    ReadingValues(s', propertyId, x.month);
    var byRoom := ReadingByRoom(s', propertyId, x.month);
    var units := UnitsOf(s'.roomReadings, SubmittedRooms(x.rooms), x.month);
    forall r
      ensures r in byRoom <==> r in units
      ensures r in byRoom && r in units ==> byRoom[r] == units[r]
    {
      if r in SubmittedRooms(x.rooms) {
        assert r in MeteredRooms(s, propertyId);
      }
    }
    assert byRoom == units;
  }

  lemma ReadingValues(s: State, p: Id, month: Month)
    ensures forall r :: r in ReadingByRoom(s, p, month) ==>
              (r, month) in s.roomReadings && ReadingByRoom(s, p, month)[r] == s.roomReadings[(r, month)].unitConsumed
  {
  }

  lemma SameReadingByRoom(s: State, s': State, p: Id, month: Month)
    requires forall r :: HasRoomReading(s', p, r, month) <==> HasRoomReading(s, p, r, month)
    requires forall r :: HasRoomReading(s, p, r, month) ==>
               (r, month) in s'.roomReadings && s'.roomReadings[(r, month)] == s.roomReadings[(r, month)]
    ensures ReadingByRoom(s', p, month) == ReadingByRoom(s, p, month)
  {
    ReadingKeys(s, p, month);
    ReadingKeys(s', p, month);
    var before, after := ReadingByRoom(s, p, month), ReadingByRoom(s', p, month);
    forall r
      ensures r in before <==> r in after
      ensures r in before ==> after[r] == before[r]
    {
      assert r in before <==> HasRoomReading(s, p, r, month);
    }
  }

  lemma ReadingKeys(s: State, p: Id, month: Month)
    ensures forall r :: r in ReadingByRoom(s, p, month) <==> HasRoomReading(s, p, r, month)
  {
    forall r | HasRoomReading(s, p, r, month)
      ensures r in ReadingByRoom(s, p, month)
    {
      assert (r, month) in s.roomReadings;
    }
  }

  /** Other properties and other months keep their readings. */
  lemma OtherReadings(s: State, propertyId: Id, x: Submission, now: Month, p: Id, month: Month)
    requires ReadingsOk(s) && AcceptsReadings(s, propertyId, x, now)
    requires (p, month) != (propertyId, x.month)
    ensures ReadingByRoom(StoreReadings(s, propertyId, x), p, month) == ReadingByRoom(s, p, month)
  {
    hide Total, RawPool, ReadingByRoom, StoreRooms, SubmittedRooms, RoomUnits;
    AcceptedRoomsGoForward(s, propertyId, x, now);
    StoreRoomsAt(s.roomReadings, propertyId, x.month, x.rooms);
    var s' := StoreReadings(s, propertyId, x);
    forall r
      ensures HasRoomReading(s', p, r, month) <==> HasRoomReading(s, p, r, month)
      ensures HasRoomReading(s, p, r, month) ==>
                (r, month) in s'.roomReadings && s'.roomReadings[(r, month)] == s.roomReadings[(r, month)]
    {
      if month == x.month && r in SubmittedRooms(x.rooms) {
        assert r in MeteredRooms(s, propertyId);
      }
    }
    SameReadingByRoom(s, s', p, month);
  }

  lemma SubmitKeepsReadings(s: State, propertyId: Id, x: Submission, now: Month)
    requires ReadingsOk(s) && AcceptsReadings(s, propertyId, x, now)
    ensures ReadingsOk(StoreReadings(s, propertyId, x))
  {
    hide Total, ReadingByRoom, StoreRooms, RoomUnits, UnitsOf;
    var s' := StoreReadings(s, propertyId, x);
    var after := StoreRooms(s.roomReadings, propertyId, x.month, x.rooms);
    AcceptedRoomsGoForward(s, propertyId, x, now);
    StoreRoomsAt(s.roomReadings, propertyId, x.month, x.rooms);
    StoredUnitsBound(s.roomReadings, propertyId, x.month, x.rooms);
    SubmittedReadings(s, propertyId, x, now);
    UnitsKeys(after, x);
    forall k | k in s'.mainReadings
      ensures ReadingByRoom(s', k.0, k.1).Keys == MeteredRooms(s', k.0) && RawPool(s', k.0, k.1) >= 0.0
    {
      if k != (propertyId, x.month) {
        OtherReadings(s, propertyId, x, now, k.0, k.1);
      }
    }
    forall k | k in s'.roomReadings
      ensures k.0 in MeteredRooms(s', s'.roomReadings[k].propertyId)
    {
      if k.1 == x.month && k.0 in SubmittedRooms(x.rooms) {
        assert k == (k.0, x.month);
      }
    }
    forall k | k in s'.roomReadings
      ensures s'.roomReadings[k].unitConsumed == s'.roomReadings[k].current - s'.roomReadings[k].previous >= 0.0
    {
      if k.1 == x.month && k.0 in SubmittedRooms(x.rooms) {
        assert k == (k.0, x.month);
      }
    }
  }

  lemma UnitsKeys(readings: map<(Id, Month), RoomReading>, x: Submission)
    requires forall r :: r in SubmittedRooms(x.rooms) ==> (r, x.month) in readings
    ensures UnitsOf(readings, SubmittedRooms(x.rooms), x.month).Keys == SubmittedRooms(x.rooms)
  {
  }

  lemma SubmitKeepsInv(s: State, propertyId: Id, ownerId: Id, x: Submission, now: Month)
    requires Inv(s)
    ensures Inv(SubmitAllReadings(s, propertyId, ownerId, x, now).db)
  {
    hide FreshIds, OccupancyOk, DebtOk, LedgerOk, TransactionsOk, SettledOk, PendingOk, ReadingsOk, AcceptsReadings,
         StoreRooms, RoomUnits;
    if SubmitAllReadings(s, propertyId, ownerId, x, now).result.Ok? {
      SubmitKeepsReadings(s, propertyId, x, now);
      SubmitFrame(s, propertyId, x);
    }
  }

  lemma SubmitFrame(s: State, propertyId: Id, x: Submission)
    requires FreshIds(s)
    ensures FreshIds(StoreReadings(s, propertyId, x))
  {
  }

  // ---------------------------------------------------------------- the bills

  /** A bill for one of the billed tenancies, of a non-negative amount. */
  ghost predicate BillFor(a: Allocation, ts: Tenancies) {
    a.amount >= 0 && exists t :: t in ts && t.id == a.tenancyId && t.propertyId == a.propertyId
  }

  ghost predicate AllBillsFor(bills: seq<Allocation>, ts: Tenancies) {
    forall i :: 0 <= i < |bills| ==> BillFor(bills[i], ts)
  }

  lemma {:induction false} TenantsOfSubset(ts: Tenancies, roomId: int)
    ensures forall t :: t in TenantsOf(ts, roomId) ==> t in ts
  {
    if ts != [] {
      TenantsOfSubset(ts[..|ts| - 1], roomId);
    }
  }

  lemma NonNegativeShares(total: int, count: int)
    requires total >= 0 && count > 0
    ensures forall i :: 0 <= i < count ==> SplitAmountEqually(total, count)[i] >= 0
  {
    assert total / count >= 0;
  }

  lemma {:induction false} RoomBillsFor(ts: Tenancies, tenants: Tenancies, units: real, unitPrice: real, n: nat)
    requires n <= |tenants| && units >= 0.0 && unitPrice > 0.0
    requires forall t :: t in tenants ==> t in ts
    ensures AllBillsFor(RoomBills(tenants, units, unitPrice, n), ts)
  {
    hide Per, SplitAmountEqually;
    if n > 0 {
      RoomBillsFor(ts, tenants, units, unitPrice, n - 1);
      CeilNonNegative(units, unitPrice);
      NonNegativeShares(Ceil(Product(units, unitPrice)), |tenants|);
      assert tenants[n - 1] in ts;
    }
  }

  lemma CeilNonNegative(units: real, unitPrice: real)
    requires units >= 0.0 && unitPrice > 0.0
    ensures Ceil(Product(units, unitPrice)) >= 0
  {
    assert Product(units, unitPrice) >= 0.0;
  }

  lemma {:induction false} MeteredBillsFor(rooms: seq<int>, ts: Tenancies, readings: map<int, real>, unitPrice: real)
    requires unitPrice > 0.0 && forall r :: r in readings ==> readings[r] >= 0.0
    ensures AllBillsFor(MeteredBills(rooms, ts, readings, unitPrice), ts)
  {
    hide TenantsOf, RoomBills, BillFor;
    if rooms != [] {
      var before, roomId := rooms[..|rooms| - 1], rooms[|rooms| - 1];
      MeteredBillsFor(before, ts, readings, unitPrice);
      if roomId in readings {
        var tenants := TenantsOf(ts, roomId);
        TenantsOfSubset(ts, roomId);
        RoomBillsFor(ts, tenants, readings[roomId], unitPrice, |tenants|);
      }
    }
  }

  lemma {:induction false} EntriesFor(pool: Tenancies, month: int, year: int)
    ensures forall i :: 0 <= i < |DayEntries(pool, month, year)| ==> DayEntries(pool, month, year)[i].tenancy in pool
  {
    hide GetTenantDaysInMonth;
    if pool != [] {
      EntriesFor(pool[..|pool| - 1], month, year);
    }
  }

  lemma {:induction false} NonMeteredSubset(ts: Tenancies, metered: seq<int>)
    ensures forall t :: t in NonMetered(ts, metered) ==> t in ts
  {
    if ts != [] {
      NonMeteredSubset(ts[..|ts| - 1], metered);
    }
  }

  lemma {:induction false} PoolBillsFor(entries: seq<DayEntry>, ts: Tenancies, rate: real, unitPrice: real)
    requires forall i :: 0 <= i < |entries| ==> entries[i].tenancy in ts
    ensures AllBillsFor(PoolBills(entries, rate, unitPrice), ts)
  {
    hide Ceil, Product, Times;
    if entries != [] {
      PoolBillsFor(entries[..|entries| - 1], ts, rate, unitPrice);
      assert entries[|entries| - 1].tenancy in ts;
    }
  }

  lemma BillsConcat(a: seq<Allocation>, b: seq<Allocation>, ts: Tenancies)
    requires AllBillsFor(a, ts) && AllBillsFor(b, ts)
    ensures AllBillsFor(a + b, ts)
  {
    hide BillFor;
  }

  /** Every bill goes to one of the given tenancies, for a non-negative amount. */
  lemma AllocationsBillTenancies(x: Inputs)
    requires x.unitPrice > 0.0 && forall r :: r in x.readings ==> x.readings[r] >= 0.0
    ensures AllBillsFor(Allocations(x).allocations, x.tenancies)
  {
    hide MeteredBills, PoolBills, DayEntries, DaysOf, NonMetered, VacantUnits, OccupiedRooms, Per, AllBillsFor;
    MeteredBillsFor(Occupied(x), x.tenancies, x.readings, x.unitPrice);
    NonMeteredSubset(x.tenancies, x.meteredRooms);
    EntriesFor(PoolTenancies(x.tenancies, x.meteredRooms), x.month, x.year);
    var days := DaysOf(PoolEntries(x));
    if EffectivePool(x) > 0.0 && days != 0 {
      var rate := Per(EffectivePool(x), days);
      PoolBillsFor(PoolEntries(x), x.tenancies, rate, x.unitPrice);
      BillsConcat(Metered(x), PoolBills(PoolEntries(x), rate, x.unitPrice), x.tenancies);
    }
  }

  // -------------------------------------------------------------- running

  /** The inputs of a run in a reachable database are what the allocation engine needs. */
  lemma RunInputsAreSound(s: State, propertyId: Id, month: Month, order: seq<Id>, roomOrder: seq<Id>)
    requires Inv(s) && (propertyId, month) in s.mainReadings
    requires QueryOrders(s, propertyId, order, roomOrder)
    ensures var x := RunInputs(s, propertyId, month, order, roomOrder);
            && Sound(x)
            && x.readings.Keys == Elements(x.meteredRooms)
            && (forall r :: r in x.readings ==> x.readings[r] >= 0.0)
            && x.rawSharedPoolUnits == s.mainReadings[(propertyId, month)].unitConsumed - Total(x.readings) >= 0.0
  {
    hide FreshIds, OccupancyOk, DebtOk, LedgerOk, TransactionsOk, SettledOk, PendingOk, Total;
    forall r
      ensures r in Elements(roomOrder) <==> r in MeteredRooms(s, propertyId)
    {
      assert r in Elements(roomOrder) <==> r in roomOrder;
    }
  }

  /** A bill becomes a due that the invariant allows. */
  lemma BillsAreAddable(s: State, propertyId: Id, month: Month, order: seq<Id>, bills: seq<Allocation>)
    requires Lists(order, ActiveTenancies(s, propertyId))
    requires AllBillsFor(bills, ActiveRows(s, order))
    ensures forall i :: 0 <= i < |bills| ==> Addable(s, BillDue(bills[i], month)) && bills[i].propertyId == propertyId
  {
    var rows := ActiveRows(s, order);
    forall i | 0 <= i < |bills|
      ensures Addable(s, BillDue(bills[i], month)) && bills[i].propertyId == propertyId
    {
      assert BillFor(bills[i], rows);
      var t :| t in rows && t.id == bills[i].tenancyId && t.propertyId == bills[i].propertyId;
      var j :| 0 <= j < |rows| && rows[j] == t;
      assert order[j] in order;
      assert order[j] in ActiveTenancies(s, propertyId);
    }
  }

  lemma RunsDoNotMatter(s: State, runs': map<(Id, Month), BillingRun>)
    requires Inv(s)
    ensures Inv(s.(runs := runs'))
  {
    hide OccupancyOk, DebtOk, LedgerOk, TransactionsOk, SettledOk, PendingOk, ReadingsOk;
    ReadingsKept(s, s.(runs := runs'));
  }

  lemma ReplacedAreUnprotected(s: State, propertyId: Id, month: Month)
    requires Inv(s)
    ensures forall d :: d in ReplacedDues(s, propertyId, month) ==> d in s.dues && s.dues[d].status == Unpaid
  {
    hide PaidInto, FreshIds, OccupancyOk, DebtOk, TransactionsOk, SettledOk, PendingOk, ReadingsOk;
    forall d | d in ReplacedDues(s, propertyId, month)
      ensures s.dues[d].status == Unpaid
    {
      assert DueOk(s.dues[d], PaidInto(s.payments, d));
    }
  }

  /** The database and the bills of a run that goes through. */
  lemma RunBillingIs(s: State, propertyId: Id, month: Month, order: seq<Id>, roomOrder: seq<Id>)
    requires Inv(s) && QueryOrders(s, propertyId, order, roomOrder)
    requires RunBilling(s, propertyId, month, order, roomOrder).result.Ok?
    requires !IsCompleted(s, propertyId, month)
    ensures (propertyId, month) in s.mainReadings && !ElectricityCollected(s, propertyId, month)
    ensures var reply := RunBilling(s, propertyId, month, order, roomOrder);
            var cleared := RemoveDues(s, ReplacedDues(s, propertyId, month));
            && reply.result.value.Some?
            && var bills := reply.result.value.value;
            && bills == Allocations(RunInputs(s, propertyId, month, order, roomOrder)).allocations
            && (forall i :: 0 <= i < |bills| ==>
                  Addable(cleared, BillDue(bills[i], month)) && bills[i].propertyId == propertyId)
            && Inv(cleared)
            && (propertyId, month) in reply.db.runs
            && reply.db == InsertDues(cleared, BillDues(bills, month)).(runs := reply.db.runs)
            && reply.db.runs == s.runs[(propertyId, month) := reply.db.runs[(propertyId, month)]]
            && reply.db.runs[(propertyId, month)].status == Completed
  {
    hide Inv, Allocations, RemoveDues, InsertDues, Referenced, ReplacedDues, RunnableReadings, AllBillsFor, Addable,
         ActiveTenancies;
    assert RunnableReadings(s, propertyId, month);
    assert (propertyId, month) in s.mainReadings by { Runnable(s, propertyId, month); }
    ReplacedAreUnprotected(s, propertyId, month);
    RemoveDuesKeeps(s, ReplacedDues(s, propertyId, month));
    RunInputsAreSound(s, propertyId, month, order, roomOrder);
    var x := RunInputs(s, propertyId, month, order, roomOrder);
    AllocationsBillTenancies(x);
    BillsAreAddable(s, propertyId, month, order, Allocations(x).allocations);
    ClearedAddable(s, ReplacedDues(s, propertyId, month), Allocations(x).allocations, month);
  }

  lemma Runnable(s: State, propertyId: Id, month: Month)
    requires RunnableReadings(s, propertyId, month)
    ensures (propertyId, month) in s.mainReadings
  {
  }

  lemma ClearedAddable(s: State, gone: set<Id>, bills: seq<Allocation>, month: Month)
    requires forall i :: 0 <= i < |bills| ==> Addable(s, BillDue(bills[i], month))
    ensures forall i :: 0 <= i < |bills| ==> Addable(RemoveDues(s, gone), BillDue(bills[i], month))
  {
  }

  lemma RunBillingKeepsInv(s: State, propertyId: Id, month: Month, order: seq<Id>, roomOrder: seq<Id>)
    requires Inv(s) && QueryOrders(s, propertyId, order, roomOrder)
    ensures Inv(RunBilling(s, propertyId, month, order, roomOrder).db)
  {
    hide Inv, RunBilling, InsertDues, RemoveDues, ReplacedDues, Allocations, Addable;
    var reply := RunBilling(s, propertyId, month, order, roomOrder);
    if reply.result.Ok? && !IsCompleted(s, propertyId, month) {
      RunBillingIs(s, propertyId, month, order, roomOrder);
      var cleared := RemoveDues(s, ReplacedDues(s, propertyId, month));
      var dues := BillDues(reply.result.value.value, month);
      InsertDuesKeeps(cleared, dues);
      RunsDoNotMatter(InsertDues(cleared, dues), reply.db.runs);
    } else {
      RefusedRun(s, propertyId, month, order, roomOrder);
    }
  }

  /** A run that is refused or skipped leaves the database alone. */
  lemma RefusedRun(s: State, propertyId: Id, month: Month, order: seq<Id>, roomOrder: seq<Id>)
    requires QueryOrders(s, propertyId, order, roomOrder)
    requires RunBilling(s, propertyId, month, order, roomOrder).result.Err? || IsCompleted(s, propertyId, month)
    ensures RunBilling(s, propertyId, month, order, roomOrder).db == s
  {
    hide Allocations, InsertDues, RemoveDues;
  }
}
