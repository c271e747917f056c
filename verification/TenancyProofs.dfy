/** Every tenancy operation keeps beds, debts and the rest of the invariant; a shift moves all open money. */
module TenancyProofs {
  import opened Calendar
  import opened DateText
  import opened DueProofs
  import opened DueRules
  import opened Invariants
  import opened Numbers
  import opened Proration
  import opened Sums
  import opened Tables
  import opened TenancyRules
  import opened Text

  // ---------------------------------------------------------------- occupancy

  /** Whether a tenancy row holds a bed of a room. */
  function Holds(t: Tenancy, roomId: Id): int {
    if t.roomId == roomId && Live(t.status) then 1 else 0
  }

  /** The beds that an existing row takes; a missing row takes none. */
  function HeldBefore(tenancies: TenancyTable, t: Id, roomId: Id): int {
    if t in tenancies then Holds(tenancies[t], roomId) else 0
  }

  lemma BedsAfter(tenancies: TenancyTable, t: Id, row: Tenancy, roomId: Id)
    ensures |Beds(tenancies[t := row], roomId)|
            == |Beds(tenancies, roomId)| - HeldBefore(tenancies, t, roomId) + Holds(row, roomId)
  {
    var before, after := Beds(tenancies, roomId), Beds(tenancies[t := row], roomId);
    BedMembers(tenancies, t, row, roomId);
    hide Beds, Holds, HeldBefore;
    forall u
      ensures u in before - {t} <==> u in after - {t}
    {
      if u != t {
        assert u in before <==> u in after;
      }
    }
    assert before - {t} == after - {t};
    WithoutOne(before, t);
    WithoutOne(after, t);
  }

  lemma BedMembers(tenancies: TenancyTable, t: Id, row: Tenancy, roomId: Id)
    ensures forall u :: u != t ==> (u in Beds(tenancies, roomId) <==> u in Beds(tenancies[t := row], roomId))
    ensures HeldBefore(tenancies, t, roomId) == if t in Beds(tenancies, roomId) then 1 else 0
    ensures Holds(row, roomId) == if t in Beds(tenancies[t := row], roomId) then 1 else 0
  {
  }

  lemma WithoutOne(ids: set<Id>, t: Id)
    ensures |ids| == |ids - {t}| + (if t in ids then 1 else 0)
  {
    if t !in ids {
      assert ids - {t} == ids;
    }
  }

  ghost predicate SameRooms(rooms: Rooms, rooms': Rooms) {
    && rooms'.Keys == rooms.Keys
    && forall r :: r in rooms ==>
         && rooms'[r].propertyId == rooms[r].propertyId && rooms'[r].hasMeter == rooms[r].hasMeter
         && rooms'[r].initialMeterReading == rooms[r].initialMeterReading
  }

  /** Replacing one tenancy row keeps the occupancy exact if each counter follows the bed. */
  lemma OccupancyStep(rooms: Rooms, rooms': Rooms, tenancies: TenancyTable, t: Id, row: Tenancy)
    requires OccupancyOk(rooms, tenancies) && SameRooms(rooms, rooms')
    requires TenancyOk(rooms, row)
    requires forall r :: r in rooms ==>
               rooms'[r].occupiedBeds == rooms[r].occupiedBeds - HeldBefore(tenancies, t, r) + Holds(row, r)
    ensures OccupancyOk(rooms', tenancies[t := row])
  {
    hide Beds;
    forall r | r in rooms'
      ensures rooms'[r].occupiedBeds == |Beds(tenancies[t := row], r)|
    {
      assert r in rooms;
      BedsAfter(tenancies, t, row, r);
    }
    var after := tenancies[t := row];
    forall u | u in after
      ensures TenancyOk(rooms', after[u])
    {
      assert TenancyOk(rooms, after[u]);
      assert after[u].roomId in rooms'.Keys;
    }
  }

  /** Changing one tenancy row and the bed counters that follow it. */
  lemma TenancyChangeKeeps(s: State, t: Id, row: Tenancy, rooms': Rooms, movedIn': set<Id>)
    requires Inv(s) && t in s.tenancies && SameRooms(s.rooms, rooms')
    requires TenancyOk(s.rooms, row) && row.propertyId == s.tenancies[t].propertyId
    requires row.status == Exited ==> OpenDues(s.dues, t) == {}
    requires forall r :: r in s.rooms ==>
               rooms'[r].occupiedBeds == s.rooms[r].occupiedBeds - HeldBefore(s.tenancies, t, r) + Holds(row, r)
    ensures Inv(SetTenancy(s, t, row).(rooms := rooms', movedIn := movedIn'))
  {
    hide LedgerOk, TransactionsOk, SettledOk, PendingOk, OccupancyOk, ReadingsOk;
    var s' := SetTenancy(s, t, row).(rooms := rooms', movedIn := movedIn');
    OccupancyStep(s.rooms, rooms', s.tenancies, t, row);
    assert DebtOk(s'.tenancies, s'.dues) by {
      forall d | d in s.dues && s.dues[d].tenancyId == t && Open(s.dues[d].status)
        ensures row.status != Exited
      {
        assert d in OpenDues(s.dues, t);
      }
    }
    ReadingsKept(s, s');
  }

  lemma RowOk(s: State, t: Id)
    requires Inv(s) && t in s.tenancies
    ensures TenancyOk(s.rooms, s.tenancies[t])
  {
    hide TenancyOk;
  }

  // ------------------------------------------------- status changes and exits

  lemma DeleteTenantKeepsInv(s: State, found: Option<Id>, tenantId: Id, propertyId: Id, ownerId: Id, now: Time)
    requires Inv(s)
    ensures Inv(DeleteTenant(s, found, tenantId, propertyId, ownerId, now).db)
  {
    hide Inv, OpenDues;
    if DeleteTenant(s, found, tenantId, propertyId, ownerId, now).result.Ok? {
      var t := found.value;
      var row := s.tenancies[t];
      RowOk(s, t);
      TenancyChangeKeeps(s, t, row.(status := Exited, deletedAt := Some(now), leftAt := Some(now)),
                         AddBeds(s.rooms, row.roomId, -1), s.movedIn);
    }
  }

  lemma RevokeKeepsInv(s: State, tenancyId: Id, ownerId: Id)
    requires Inv(s)
    ensures Inv(RevokeTenancyExit(s, tenancyId, ownerId).db)
  {
    hide Inv;
    if RevokeTenancyExit(s, tenancyId, ownerId).result.Ok? {
      var row := s.tenancies[tenancyId];
      RowOk(s, tenancyId);
      TenancyChangeKeeps(s, tenancyId, row.(status := Active, deletedAt := None, leftAt := None),
                         AddBeds(s.rooms, row.roomId, 1), s.movedIn);
    }
  }

  lemma ReActivateKeepsInv(s: State, propertyId: Id, ownerId: Id, tenancyId: Id)
    requires Inv(s)
    ensures Inv(ReActiveTenancy(s, propertyId, ownerId, tenancyId).db)
  {
    hide Inv;
    if ReActiveTenancy(s, propertyId, ownerId, tenancyId).result.Ok? {
      var row := s.tenancies[tenancyId];
      RowOk(s, tenancyId);
      TenancyChangeKeeps(s, tenancyId, row.(status := Active, deletedAt := None),
                         AddBeds(s.rooms, row.roomId, 1), s.movedIn);
    }
  }

  /** Changing between live statuses moves no bed. */
  lemma LiveStatusKeepsInv(s: State, tenancyId: Id, status: TenancyStatus, movedIn': set<Id>)
    requires Inv(s) && tenancyId in s.tenancies
    requires Live(s.tenancies[tenancyId].status) && Live(status)
    ensures Inv(SetTenancy(s, tenancyId, s.tenancies[tenancyId].(status := status)).(movedIn := movedIn'))
  {
    hide Inv;
    RowOk(s, tenancyId);
    TenancyChangeKeeps(s, tenancyId, s.tenancies[tenancyId].(status := status), s.rooms, movedIn');
  }

  lemma StatusChangesKeepInv(s: State, tenancyId: Id, ownerId: Id, requestProperty: Id, moveOut: Time, today: Time)
    requires Inv(s)
    ensures Inv(PutOnNoticePeriod(s, tenancyId, ownerId, moveOut, today).db)
    ensures Inv(CancelNoticePeriod(s, tenancyId, ownerId).db)
    ensures Inv(ApproveMoveOut(s, tenancyId, requestProperty, ownerId, moveOut, today).db)
    ensures Inv(ConfirmMoveIn(s, tenancyId, ownerId, today).db)
  {
    hide Inv;
    if tenancyId in s.tenancies {
      RowOk(s, tenancyId);
      if Live(s.tenancies[tenancyId].status) {
        LiveStatusKeepsInv(s, tenancyId, NoticePeriod, s.movedIn);
        LiveStatusKeepsInv(s, tenancyId, Active, s.movedIn);
        LiveStatusKeepsInv(s, tenancyId, Active, s.movedIn + {tenancyId});
      }
    }
  }

  lemma UpdateDetailsKeepsInv(s: State, tenancyId: Id, ownerId: Id, moveOut: Option<Option<Time>>, today: Time)
    requires Inv(s)
    ensures Inv(UpdateTenancyDetails(s, tenancyId, ownerId, moveOut, today).db)
  {
    hide Inv;
    if tenancyId in s.tenancies && Live(s.tenancies[tenancyId].status) {
      LiveStatusKeepsInv(s, tenancyId, NoticePeriod, s.movedIn);
      LiveStatusKeepsInv(s, tenancyId, Active, s.movedIn);
    }
  }

  /**
   Revoking an exit takes the bed back without looking: the room stays within its capacity exactly when it had
   a free bed, the check that re-activation makes.
   */
  lemma RevokeCapacityCondition(s: State, tenancyId: Id, ownerId: Id)
    requires RevokeTenancyExit(s, tenancyId, ownerId).result.Ok?
    ensures var r := s.tenancies[tenancyId].roomId;
            var room' := RevokeTenancyExit(s, tenancyId, ownerId).db.rooms[r];
            room'.occupiedBeds <= room'.totalBeds <==> !Full(s.rooms[r])
  {
  }

  // --------------------------------------------------------------- onboarding

  lemma {:induction false} SegmentTotalNonNegative(cursor: Time, periodEnd: Time, rent: real)
    requires rent >= 0.0
    ensures SegmentTotal(cursor, periodEnd, rent) >= 0.0
    decreases periodEnd - cursor
  {
    hide FirstOfNextMonth, MonthDays, Times, Per, Round;
    if cursor < periodEnd {
      var next := FirstOfNextMonth(cursor);
      var segmentEnd := if periodEnd < next then periodEnd else next;
      SegmentTotalNonNegative(next, periodEnd, rent);
      RoundNonNegative((segmentEnd - cursor) as real / MS_PER_DAY as real);
      CostNonNegative(rent, MonthDays(GetUTCFullYear(cursor), GetUTCMonth(cursor)),
                      Round((segmentEnd - cursor) as real / MS_PER_DAY as real));
    }
  }

  lemma RoundNonNegative(x: real)
    requires x >= 0.0
    ensures Round(x) >= 0
  {
  }

  lemma CostNonNegative(rent: real, monthDays: int, days: int)
    requires rent >= 0.0 && monthDays > 0 && days >= 0
    ensures Times(Per(rent, monthDays), days) >= 0.0
  {
    assert Per(rent, monthDays) >= 0.0;
  }

  /** Onboarding never charges a negative first rent. */
  lemma FirstRentNonNegative(joinDate: Time, cycleDay: int, rent: real)
    requires rent >= 0.0
    ensures FirstRentCharge(joinDate, cycleDay, rent) >= 0
  {
    hide SegmentTotal, ToDateOnly, GetFirstCycleEnd, Round, Ceil;
    var total := SegmentTotal(ToDateOnly(joinDate), GetFirstCycleEnd(joinDate, cycleDay), rent);
    SegmentTotalNonNegative(ToDateOnly(joinDate), GetFirstCycleEnd(joinDate, cycleDay), rent);
    RoundNonNegative(total * 100.0);
    assert RoundPaise(total) >= 0.0;
    assert Ceil(RoundPaise(total)) as real >= 0.0;
  }

  /** The new tenancy row with its bed taken, before any due exists. */
  lemma NewTenancyKeeps(s: State, row: Tenancy, nextId': int)
    requires Inv(s) && row.roomId in s.rooms && nextId' > s.nextId
    requires TenancyOk(s.rooms, row) && Live(row.status)
    ensures Inv(s.(nextId := nextId', tenancies := s.tenancies[nextId' - 1 := row],
        rooms := AddBeds(s.rooms, row.roomId, 1)))
  {
    hide TransactionsOk, LedgerOk, SettledOk, PendingOk, OccupancyOk, ReadingsOk;
    var id := nextId' - 1;
    var s' := s.(nextId := nextId', tenancies := s.tenancies[id := row], rooms := AddBeds(s.rooms, row.roomId, 1));
    assert id !in s.tenancies;
    OccupancyStep(s.rooms, s'.rooms, s.tenancies, id, row);
    assert DebtOk(s'.tenancies, s'.dues);
    ReadingsKept(s, s');
  }

  lemma OnboardCommitKeepsInv(s: State, r: Onboarding, today: Time, month: Month)
    requires Inv(s) && ValidRequest(r)
    requires r.roomId in s.rooms ==> s.rooms[r.roomId].propertyId == r.propertyId
    ensures Inv(OnboardCommit(s, r, today, month).db)
  {
    hide Inv, InsertDues, OpenTenancy, FirstDues, Addable;
    if OnboardCommit(s, r, today, month).result.Ok? {
      ArrivalKeepsInv(s, r, today, month);
      var arrived := OpenTenancy(s, r, today);
      InsertDuesKeeps(arrived, FirstDues(r, arrived.nextId - 1, month));
    }
  }

  /** The tenancy has arrived, and its first dues fit it. */
  lemma ArrivalKeepsInv(s: State, r: Onboarding, today: Time, month: Month)
    requires Inv(s) && ValidRequest(r)
    requires r.roomId in s.rooms && s.rooms[r.roomId].propertyId == r.propertyId
    ensures var arrived := OpenTenancy(s, r, today);
            var dues := FirstDues(r, arrived.nextId - 1, month);
            && Inv(arrived)
            && forall i :: 0 <= i < |dues| ==> Addable(arrived, dues[i])
  {
    hide Inv, FirstRentCharge, GetFirstCycleEnd, Ceil;
    var tenantId := if r.tenantId.Some? then r.tenantId.value else s.nextId;
    NewTenancyKeeps(s, OnboardedTenancy(r, tenantId, today), OpenTenancy(s, r, today).nextId);
    FirstRentNonNegative(r.joinDate, r.rentCycleDay, r.rentAmount);
  }

  lemma ArrivalRooms(s: State, r: Onboarding, today: Time)
    requires r.roomId in s.rooms
    ensures OpenTenancy(s, r, today).rooms == AddBeds(s.rooms, r.roomId, 1)
  {
    hide AddBeds, OnboardedTenancy;
  }

  lemma OnboardedDues(s: State, r: Onboarding, today: Time, month: Month)
    requires Inv(s) && CreateTenant(s, r, today, month).result.Ok?
    ensures var arrived := OpenTenancy(s, r, today);
            var dues := FirstDues(r, arrived.nextId - 1, month);
            && Inv(arrived)
            && (forall i :: 0 <= i < |dues| ==> Addable(arrived, dues[i]))
            && arrived.dues == s.dues && arrived.payments == s.payments && arrived.transactions == s.transactions
            && arrived.settlements == s.settlements
            && CreateTenant(s, r, today, month).db == InsertDues(arrived, dues)
  {
    hide Inv, InsertDues, FirstDues, Addable;
    ArrivalKeepsInv(s, r, today, month);
  }

  lemma CreateTenantKeepsInv(s: State, r: Onboarding, today: Time, month: Month)
    requires Inv(s)
    ensures Inv(CreateTenant(s, r, today, month).db)
  {
    hide Inv, OnboardCommit;
    if OnboardPreflight(s, r, today).Ok? {
      OnboardCommitKeepsInv(s, r, today, month);
    }
  }

  // --------------------------------------------------------------- room shift

  /** Changing the property of open dues changes no amount. */
  lemma ReassignLedger(dues: Dues, payments: Payments, moved: set<Id>, propertyId: Id)
    requires LedgerOk(dues, payments)
    ensures LedgerOk(Reassign(dues, moved, propertyId), payments)
  {
    hide PaidInto;
    assert Reassign(dues, moved, propertyId).Keys == dues.Keys;
  }

  lemma ReassignTransactions(transactions: Transactions, dues: Dues, moved: set<Id>, propertyId: Id)
    requires TransactionsOk(transactions, dues)
    ensures TransactionsOk(transactions, Reassign(dues, moved, propertyId))
  {
    hide TransactionOk;
    assert Reassign(dues, moved, propertyId).Keys == dues.Keys;
    forall t | t in transactions
      ensures TransactionOk(Reassign(dues, moved, propertyId), transactions[t])
    {
      TransactionKept(dues, Reassign(dues, moved, propertyId), transactions[t]);
    }
  }

  lemma ReassignDebts(tenancies: TenancyTable, dues: Dues, t: Id, row: Tenancy)
    requires DebtOk(tenancies, dues) && t in tenancies && row.status != Exited
    ensures DebtOk(tenancies[t := row], Reassign(dues, OpenDues(dues, t), row.propertyId))
  {
  }

  /** The open dues of a tenancy are in the tenancy's own property. */
  lemma OpenDuesAtHome(s: State, t: Id)
    requires Inv(s) && t in s.tenancies
    ensures forall d :: d in OpenDues(s.dues, t) ==> s.dues[d].propertyId == s.tenancies[t].propertyId
  {
  }

  // ------------------------------------------------- a shift transaction, case by case

  lemma ShiftRefused(s: State, plan: ShiftPlan)
    requires ShiftCommit(s, plan).result.Err?
    ensures ShiftCommit(s, plan).db == s
  {
    hide MoveInside, MoveAcross;
  }

  lemma ShiftedInside(s: State, plan: ShiftPlan)
    requires ShiftCommit(s, plan).result.Ok? && plan.newProperty == plan.oldProperty
    ensures PlanReadable(s, plan) && !Full(s.rooms[plan.newRoom])
    ensures ShiftCommit(s, plan).db == MoveInside(s, plan)
  {
    hide MoveInside, MoveAcross;
  }

  lemma ShiftedAcross(s: State, plan: ShiftPlan)
    requires ShiftCommit(s, plan).result.Ok? && plan.newProperty != plan.oldProperty
    ensures PlanReadable(s, plan) && !Full(s.rooms[plan.newRoom])
    ensures ShiftCommit(s, plan).db == MoveAcross(s, plan)
  {
    hide MoveInside, MoveAcross;
  }

  /** The tables that no shift writes. */
  ghost predicate ShiftFrame(s: State, s': State) {
    && s'.payments == s.payments && s'.transactions == s.transactions && s'.settlements == s.settlements
    && s'.runs == s.runs && s'.mainReadings == s.mainReadings && s'.roomReadings == s.roomReadings
  }

  lemma InsideFrame(s: State, plan: ShiftPlan)
    requires PlanReadable(s, plan)
    ensures var s' := MoveInside(s, plan);
            ShiftFrame(s, s') && s'.dues == s.dues && s'.rooms == MoveBed(s.rooms, plan.oldRoom, plan.newRoom)
  {
    hide MoveBed;
  }

  lemma AcrossFrame(s: State, plan: ShiftPlan)
    requires PlanReadable(s, plan)
    ensures var s' := MoveAcross(s, plan);
            && ShiftFrame(s, s')
            && s'.dues == Reassign(s.dues, OpenDues(s.dues, plan.tenancyId), plan.newProperty)
            && s'.rooms == MoveBed(s.rooms, plan.oldRoom, plan.newRoom)
  {
    hide MoveBed, Buckets, MoveBuckets, Reassign, OpenDues;
  }

  /** What a shift does to the rooms, in either case. */
  lemma ShiftedRooms(s: State, plan: ShiftPlan)
    requires ShiftCommit(s, plan).result.Ok?
    ensures PlanReadable(s, plan) && !Full(s.rooms[plan.newRoom])
    ensures ShiftCommit(s, plan).db.rooms == MoveBed(s.rooms, plan.oldRoom, plan.newRoom)
  {
    hide ShiftCommit, MoveBed, MoveInside, MoveAcross;
    if plan.newProperty == plan.oldProperty {
      ShiftedInside(s, plan);
      InsideFrame(s, plan);
    } else {
      ShiftedAcross(s, plan);
      AcrossFrame(s, plan);
    }
  }

  /** An admitted shift plans a move between two rooms of the owner, from the one that the tenancy lives in. */
  lemma ShiftFits(s: State, t: Id, room: Id, property: Option<Id>, owner: Id)
    requires Inv(s) && ShiftPreflight(s, t, room, property, owner).Ok?
    ensures var plan := ShiftPreflight(s, t, room, property, owner).value;
            && plan.tenancyId == t && plan.newRoom == room && PlanFits(s, plan)
            && plan.oldRoom in s.rooms && plan.oldRoom != plan.newRoom
            && s.rooms[plan.oldRoom].propertyId == plan.oldProperty
            && Owns(s, owner, plan.oldProperty) && Owns(s, owner, plan.newProperty)
            && (s.tenancies[t].status == Active || s.tenancies[t].status == NoticePeriod)
  {
    hide Inv;
    RowOk(s, t);
  }

  lemma ShiftTenantRoomKeepsInv(s: State, tenancyId: Id, newRoom: Id, newPropertyId: Option<Id>, ownerId: Id)
    requires Inv(s)
    ensures Inv(ShiftTenantRoom(s, tenancyId, newRoom, newPropertyId, ownerId).db)
  {
    hide Inv, ShiftCommit;
    if ShiftPreflight(s, tenancyId, newRoom, newPropertyId, ownerId).Ok? {
      ShiftCommitKeepsInv(s, ShiftPreflight(s, tenancyId, newRoom, newPropertyId, ownerId).value);
    }
  }

  /** The plan still describes the tenancy: nothing came between the read and the transaction. */
  ghost predicate PlanFits(s: State, plan: ShiftPlan) {
    && plan.tenancyId in s.tenancies && plan.newRoom in s.rooms
    && s.rooms[plan.newRoom].propertyId == plan.newProperty
    && var t := s.tenancies[plan.tenancyId];
       t.roomId == plan.oldRoom && t.propertyId == plan.oldProperty && Live(t.status) && t.deletedAt.None?
  }

  lemma ShiftCommitKeepsInv(s: State, plan: ShiftPlan)
    requires Inv(s) && PlanFits(s, plan)
    ensures Inv(ShiftCommit(s, plan).db)
  {
    hide Inv, ShiftCommit, MoveInside, MoveAcross;
    if ShiftCommit(s, plan).result.Err? {
      ShiftRefused(s, plan);
    } else if plan.newProperty == plan.oldProperty {
      ShiftedInside(s, plan);
      SamePropertyShiftKeeps(s, plan);
    } else {
      ShiftedAcross(s, plan);
      CrossPropertyShiftKeeps(s, plan);
    }
  }

  lemma SamePropertyShiftKeeps(s: State, plan: ShiftPlan)
    requires Inv(s) && PlanFits(s, plan) && PlanReadable(s, plan) && plan.newProperty == plan.oldProperty
    ensures Inv(MoveInside(s, plan))
  {
    hide Inv;
    RowOk(s, plan.tenancyId);
    TenancyChangeKeeps(s, plan.tenancyId, s.tenancies[plan.tenancyId].(roomId := plan.newRoom),
                       MoveBed(s.rooms, plan.oldRoom, plan.newRoom), s.movedIn);
  }

  lemma CrossPropertyShiftKeeps(s: State, plan: ShiftPlan)
    requires Inv(s) && PlanFits(s, plan) && PlanReadable(s, plan)
    ensures Inv(MoveAcross(s, plan))
  {
    hide LedgerOk, TransactionsOk, SettledOk, PendingOk, OccupancyOk, ReadingsOk, DebtOk, OpenDues, Buckets,
         MoveBuckets;
    var t := plan.tenancyId;
    var row := s.tenancies[t].(roomId := plan.newRoom, propertyId := plan.newProperty);
    var moved := OpenDues(s.dues, t);
    RowOk(s, t);
    OccupancyStep(s.rooms, MoveBed(s.rooms, plan.oldRoom, plan.newRoom), s.tenancies, t, row);
    ReassignDebts(s.tenancies, s.dues, t, row);
    ReassignLedger(s.dues, s.payments, moved, plan.newProperty);
    ReassignTransactions(s.transactions, s.dues, moved, plan.newProperty);
    ReadingsKept(s, MoveAcross(s, plan));
  }
}
