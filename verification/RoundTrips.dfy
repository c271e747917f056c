/** What one call undoes of another: exits, room shifts and changes to dues. */
module RoundTrips {
  import opened Calendar
  import opened DueRules
  import opened Invariants
  import opened Numbers
  import opened PaymentRules
  import opened ShiftMoney
  import opened Tables
  import opened TenancyProofs
  import opened TenancyRules
  import opened Text

  // ----------------------------------------------------------------------- exit

  lemma BedReturned(rooms: Rooms, r: Id, delta: int)
    requires r in rooms
    ensures AddBeds(AddBeds(rooms, r, delta), r, -delta) == rooms
  {
  }

  /**
   Revoking an exit restores every table, except that the tenancy comes back as active even if it had been
   pending or on notice; re-activating it also leaves the day it left.
   */
  lemma ExitUndone(s: State, found: Option<Id>, tenantId: Id, propertyId: Id, ownerId: Id, now: Time)
    requires DeleteTenant(s, found, tenantId, propertyId, ownerId, now).result.Ok?
    ensures var t, exited := found.value, DeleteTenant(s, found, tenantId, propertyId, ownerId, now).db;
            && t in s.tenancies
            && RevokeTenancyExit(exited, t, ownerId)
               == Reply(SetTenancy(s, t, s.tenancies[t].(status := Active, leftAt := None)), Ok(()))
            && ReActiveTenancy(exited, propertyId, ownerId, t)
               == if s.rooms[s.tenancies[t].roomId].occupiedBeds - 1 >= s.rooms[s.tenancies[t].roomId].totalBeds
                  then Reply(exited, Err(BadRequest))
                  else Reply(SetTenancy(s, t, s.tenancies[t].(status := Active, leftAt := Some(now))), Ok(()))
  {
    hide OpenDues;
    var t := found.value;
    var row, exited := s.tenancies[t], DeleteTenant(s, found, tenantId, propertyId, ownerId, now).db;
    BedReturned(s.rooms, row.roomId, -1);
    LastUpdateCounts(s.tenancies, t, exited.tenancies[t], row.(status := Active, leftAt := None));
    LastUpdateCounts(s.tenancies, t, exited.tenancies[t], row.(status := Active, leftAt := Some(now)));
  }

  lemma LastUpdateCounts(tenancies: TenancyTable, t: Id, a: Tenancy, b: Tenancy)
    ensures tenancies[t := a][t := b] == tenancies[t := b]
  {
  }

  // ------------------------------------------------------------------ room shift

  /** The plan of the way back. */
  function Back(plan: ShiftPlan): ShiftPlan {
    ShiftPlan(plan.tenancyId, plan.newRoom, plan.newProperty, plan.oldRoom, plan.oldProperty)
  }

  lemma BedsMovedBack(rooms: Rooms, a: Id, b: Id)
    requires a in rooms && b in rooms
    ensures a in MoveBed(rooms, a, b) && b in MoveBed(rooms, a, b)
    ensures MoveBed(MoveBed(rooms, a, b), b, a) == rooms
  {
  }

  lemma InsideAndBack(s: State, plan: ShiftPlan)
    requires PlanReadable(s, plan) && s.tenancies[plan.tenancyId].roomId == plan.oldRoom
    ensures PlanReadable(MoveInside(s, plan), Back(plan))
    ensures MoveInside(MoveInside(s, plan), Back(plan)) == s
  {
    hide MoveBed;
    BedsMovedBack(s.rooms, plan.oldRoom, plan.newRoom);
    var there := MoveInside(s, plan);
    assert there.tenancies[plan.tenancyId := there.tenancies[plan.tenancyId].(roomId := plan.oldRoom)] == s.tenancies;
  }

  lemma DuesMovedBack(s: State, t: Id, there: Id, home: Id)
    requires forall d :: d in OpenDues(s.dues, t) ==> s.dues[d].propertyId == home
    ensures var dues' := Reassign(s.dues, OpenDues(s.dues, t), there);
            && OpenDues(dues', t) == OpenDues(s.dues, t)
            && Reassign(dues', OpenDues(dues', t), home) == s.dues
  {
    var moved := OpenDues(s.dues, t);
    var dues' := Reassign(s.dues, moved, there);
    forall d
      ensures d in OpenDues(dues', t) <==> d in moved
    {
    }
    assert OpenDues(dues', t) == moved;
    var back := Reassign(dues', moved, home);
    assert back.Keys == s.dues.Keys;
    forall d | d in s.dues
      ensures back[d] == s.dues[d]
    {
    }
  }

  lemma BucketsUnmoved(dues: Dues, moved: set<Id>, propertyId: Id)
    requires moved <= dues.Keys
    ensures moved <= Reassign(dues, moved, propertyId).Keys
    ensures Buckets(Reassign(dues, moved, propertyId), moved) == Buckets(dues, moved)
  {
    hide AmountsOf;
    var dues' := Reassign(dues, moved, propertyId);
    assert dues'.Keys == dues.Keys;
    forall m: Month
      ensures AmountsOf(InMonth(dues', moved, m)) == AmountsOf(InMonth(dues, moved, m))
    {
      SameMonthAmounts(dues, moved, propertyId, m);
    }
    forall m: Month
      ensures m in Buckets(dues', moved) <==> m in Buckets(dues, moved)
    {
    }
  }

  lemma SameMonthAmounts(dues: Dues, moved: set<Id>, propertyId: Id, m: Month)
    ensures AmountsOf(InMonth(Reassign(dues, moved, propertyId), moved, m)) == AmountsOf(InMonth(dues, moved, m))
  {
    hide Sums.Total;
    var a, b := InMonth(dues, moved, m), InMonth(Reassign(dues, moved, propertyId), moved, m);
    AmountsAre(a);
    AmountsAre(b);
    assert Totals(b) == Totals(a) && Paids(b) == Paids(a) && Balances(b) == Balances(a);
  }

  /**
   There and back between two properties: the new property's metrics are as before, month by month; the old
   property's exactly when it had a row for each month in which money moved, because the way back creates one.
   */
  lemma MetricsMovedBack(metrics: MetricsTable, p: Id, q: Id, buckets: map<Month, Metrics>, month: Month)
    requires p != q
    ensures var after := MoveBuckets(MoveBuckets(metrics, p, q, buckets), q, p, buckets);
            && Row(after, q, month) == Row(metrics, q, month)
            && (Row(after, p, month) == Row(metrics, p, month)
                <==> (month in buckets ==> (p, month) in metrics || buckets[month] == NO_MONEY))
  {
    hide MoveBuckets, Row, Plus, Minus;
    var there := MoveBuckets(metrics, p, q, buckets);
    MoveOneMonth(metrics, p, q, buckets, month);
    MoveOneMonth(there, q, p, buckets, month);
    if month in buckets {
      MovedRow(metrics, p, q, buckets, (q, month));
      TakenBack(Row(metrics, p, month), buckets[month]);
      TakenBack(Row(metrics, q, month), buckets[month]);
      PlusNothing(Row(metrics, p, month), buckets[month]);
    }
  }

  lemma TakenBack(a: Metrics, b: Metrics)
    ensures Plus(Minus(a, b), b) == a && Minus(Plus(a, b), b) == a
  {
  }

  lemma AcrossAndBack(s: State, plan: ShiftPlan)
    requires Inv(s) && PlanFits(s, plan) && PlanReadable(s, plan)
    ensures var there := MoveAcross(s, plan);
            var buckets := Buckets(s.dues, OpenDues(s.dues, plan.tenancyId));
            && PlanReadable(there, Back(plan))
            && MoveAcross(there, Back(plan))
               == s.(metrics := MoveBuckets(MoveBuckets(s.metrics, plan.oldProperty, plan.newProperty, buckets),
                                            plan.newProperty, plan.oldProperty, buckets))
  {
    hide MoveBed, MoveBuckets, Buckets, OpenDues, Reassign, Inv;
    var t, there := plan.tenancyId, MoveAcross(s, plan);
    var moved := OpenDues(s.dues, t);
    BedsMovedBack(s.rooms, plan.oldRoom, plan.newRoom);
    OpenDuesAtHome(s, t);
    DuesMovedBack(s, t, plan.newProperty, plan.oldProperty);
    BucketsUnmoved(s.dues, moved, plan.newProperty);
    assert there.tenancies[t := there.tenancies[t].(roomId := plan.oldRoom, propertyId := plan.oldProperty)]
        == s.tenancies;
  }

  /** The way back as the owner asks for it: to the room and property that the tenancy lived in before. */
  ghost function ShiftBack(s: State, there: State, t: Id, ownerId: Id): Reply<()>
    requires t in s.tenancies
  {
    ShiftTenantRoom(there, t, s.tenancies[t].roomId, Some(s.tenancies[t].propertyId), ownerId)
  }

  /** The database after a shift and its plan. */
  lemma ShiftedIs(s: State, t: Id, newRoom: Id, newProperty: Option<Id>, ownerId: Id)
    requires Inv(s) && ShiftTenantRoom(s, t, newRoom, newProperty, ownerId).result.Ok?
    ensures ShiftPreflight(s, t, newRoom, newProperty, ownerId).Ok?
    ensures var plan := ShiftPreflight(s, t, newRoom, newProperty, ownerId).value;
            && PlanReadable(s, plan)
            && ShiftTenantRoom(s, t, newRoom, newProperty, ownerId).db
               == if plan.newProperty == plan.oldProperty then MoveInside(s, plan) else MoveAcross(s, plan)
  {
    hide Inv, ShiftPreflight, ShiftCommit, MoveInside, MoveAcross;
    var plan := ShiftPreflight(s, t, newRoom, newProperty, ownerId).value;
    if plan.newProperty == plan.oldProperty {
      ShiftedInside(s, plan);
    } else {
      ShiftedAcross(s, plan);
    }
  }

  /** What the pre-flight checks of the way back look at. */
  lemma ThereRows(s: State, plan: ShiftPlan)
    requires PlanReadable(s, plan) && PlanFits(s, plan) && plan.oldRoom != plan.newRoom
    ensures var there := if plan.newProperty == plan.oldProperty then MoveInside(s, plan) else MoveAcross(s, plan);
            && plan.tenancyId in there.tenancies && there.owners == s.owners
            && there.tenancies[plan.tenancyId]
               == s.tenancies[plan.tenancyId].(roomId := plan.newRoom, propertyId := plan.newProperty)
            && plan.oldRoom in there.rooms && plan.newRoom in there.rooms
            && there.rooms[plan.oldRoom]
               == s.rooms[plan.oldRoom].(occupiedBeds := s.rooms[plan.oldRoom].occupiedBeds - 1)
  {
    hide OpenDues, Reassign, MoveBuckets, Buckets;
  }

  /** The way back is admitted exactly if the old room was within its capacity, and it is the plan reversed. */
  lemma WayBack(s: State, t: Id, newRoom: Id, newProperty: Option<Id>, ownerId: Id)
    requires Inv(s) && ShiftTenantRoom(s, t, newRoom, newProperty, ownerId).result.Ok?
    ensures ShiftPreflight(s, t, newRoom, newProperty, ownerId).Ok? && t in s.tenancies
    ensures s.tenancies[t].roomId in s.rooms
    ensures var plan := ShiftPreflight(s, t, newRoom, newProperty, ownerId).value;
            var there := ShiftTenantRoom(s, t, newRoom, newProperty, ownerId).db;
            ShiftBack(s, there, t, ownerId)
            == if s.rooms[s.tenancies[t].roomId].occupiedBeds <= s.rooms[s.tenancies[t].roomId].totalBeds
               then ShiftCommit(there, Back(plan)) else Reply(there, Err(Conflict))
  {
    hide Inv, ShiftCommit, MoveInside, MoveAcross, ShiftTenantRoom;
    ShiftedIs(s, t, newRoom, newProperty, ownerId);
    ShiftFits(s, t, newRoom, newProperty, ownerId);
    var plan := ShiftPreflight(s, t, newRoom, newProperty, ownerId).value;
    ThereRows(s, plan);
    PreflightBack(s, ShiftTenantRoom(s, t, newRoom, newProperty, ownerId).db, plan, ownerId);
    ShiftTenantRoomIs(ShiftTenantRoom(s, t, newRoom, newProperty, ownerId).db, t, plan.oldRoom,
                      Some(plan.oldProperty), ownerId);
  }

  lemma PreflightBack(s: State, there: State, plan: ShiftPlan, ownerId: Id)
    requires PlanFits(s, plan) && plan.oldRoom in s.rooms && s.rooms[plan.oldRoom].propertyId == plan.oldProperty
    requires plan.oldRoom != plan.newRoom && plan.tenancyId in there.tenancies && there.owners == s.owners
    requires s.tenancies[plan.tenancyId].status == Active || s.tenancies[plan.tenancyId].status == NoticePeriod
    requires Owns(s, ownerId, plan.oldProperty) && Owns(s, ownerId, plan.newProperty)
    requires there.tenancies[plan.tenancyId]
          == s.tenancies[plan.tenancyId].(roomId := plan.newRoom, propertyId := plan.newProperty)
    requires plan.oldRoom in there.rooms
    requires there.rooms[plan.oldRoom]
          == s.rooms[plan.oldRoom].(occupiedBeds := s.rooms[plan.oldRoom].occupiedBeds - 1)
    ensures ShiftPreflight(there, plan.tenancyId, plan.oldRoom, Some(plan.oldProperty), ownerId)
         == if s.rooms[plan.oldRoom].occupiedBeds <= s.rooms[plan.oldRoom].totalBeds then Ok(Back(plan))
            else Err(Conflict)
  {
  }

  lemma ShiftTenantRoomIs(s: State, t: Id, newRoom: Id, newProperty: Option<Id>, ownerId: Id)
    ensures ShiftTenantRoom(s, t, newRoom, newProperty, ownerId)
         == match ShiftPreflight(s, t, newRoom, newProperty, ownerId)
            case Err(e) => Reply(s, Err(e))
            case Ok(plan) => ShiftCommit(s, plan)
  {
    hide ShiftPreflight, ShiftCommit;
  }

  /**
   Shifting back within a property is accepted exactly if the old room was within its capacity (a revoked exit may have
   overfilled it), and then it restores the whole database.
   */
  lemma ShiftUndone(s: State, t: Id, newRoom: Id, newProperty: Option<Id>, ownerId: Id)
    requires Inv(s) && ShiftTenantRoom(s, t, newRoom, newProperty, ownerId).result.Ok?
    requires newProperty == None || newProperty == Some(s.tenancies[t].propertyId)
    ensures var there := ShiftTenantRoom(s, t, newRoom, newProperty, ownerId).db;
            && t in s.tenancies && s.tenancies[t].roomId in s.rooms
            && var home := s.rooms[s.tenancies[t].roomId];
            ShiftBack(s, there, t, ownerId)
            == if home.occupiedBeds <= home.totalBeds then Reply(s, Ok(())) else Reply(there, Err(Conflict))
  {
    hide Inv, MoveInside, MoveAcross, ShiftTenantRoom, ShiftBack;
    WayBack(s, t, newRoom, newProperty, ownerId);
    ShiftedIs(s, t, newRoom, newProperty, ownerId);
    ShiftFits(s, t, newRoom, newProperty, ownerId);
    var plan := ShiftPreflight(s, t, newRoom, newProperty, ownerId).value;
    ThereRows(s, plan);
    InsideAndBack(s, plan);
  }

  /**
   Shifting back to the old property is accepted exactly if the old room was within its capacity, and then rooms,
   tenancies and dues are as before, and metrics as MetricsMovedBack says.
   */
  lemma CrossShiftUndone(s: State, t: Id, newRoom: Id, q: Id, ownerId: Id)
    requires Inv(s) && ShiftTenantRoom(s, t, newRoom, Some(q), ownerId).result.Ok?
    requires t in s.tenancies ==> q != s.tenancies[t].propertyId
    ensures var there := ShiftTenantRoom(s, t, newRoom, Some(q), ownerId).db;
            && t in s.tenancies && s.tenancies[t].roomId in s.rooms
            && var home, p := s.rooms[s.tenancies[t].roomId], s.tenancies[t].propertyId;
            var buckets := Buckets(s.dues, OpenDues(s.dues, t));
            ShiftBack(s, there, t, ownerId)
            == if home.occupiedBeds <= home.totalBeds
               then Reply(s.(metrics := MoveBuckets(MoveBuckets(s.metrics, p, q, buckets), q, p, buckets)), Ok(()))
               else Reply(there, Err(Conflict))
  {
    hide Inv, MoveInside, MoveAcross, ShiftTenantRoom, ShiftBack, OpenDues, MoveBuckets, Buckets;
    WayBack(s, t, newRoom, Some(q), ownerId);
    ShiftedIs(s, t, newRoom, Some(q), ownerId);
    ShiftFits(s, t, newRoom, Some(q), ownerId);
    var plan := ShiftPreflight(s, t, newRoom, Some(q), ownerId).value;
    ThereRows(s, plan);
    AcrossAndBack(s, plan);
  }

  // ------------------------------------------------------------------------ dues

  /** A due that was added by mistake can be deleted: only the id counter remembers it. */
  lemma AddedDueDeleted(s: State, found: Option<Id>, tenantId: Id, propertyId: Id, ownerId: Id, dueType: DueType,
                        amount: real, month: Month)
    requires Inv(s) && Owns(s, ownerId, propertyId)
    requires AddDueToTenant(s, found, tenantId, propertyId, dueType, amount, month).result.Ok?
    ensures var added := AddDueToTenant(s, found, tenantId, propertyId, dueType, amount, month);
            DeleteDue(added.db, added.result.value, ownerId) == Reply(s.(nextId := s.nextId + 1), Ok(()))
  {
    hide Inv, Referenced, Ceil, RemoveDues;
    var due := NewDue(found.value, propertyId, dueType, month, Ceil(amount) as real);
    FreshDueRemoved(s, due);
  }

  lemma FreshDueRemoved(s: State, due: Due)
    requires Inv(s)
    ensures !Referenced(InsertDue(s, due), s.nextId)
    ensures RemoveDues(InsertDue(s, due), {s.nextId}) == s.(nextId := s.nextId + 1)
  {
    hide OccupancyOk, DebtOk, SettledOk, PendingOk, ReadingsOk, PaidInto, LineTotal;
    var added := InsertDue(s, due);
    assert added.dues - {s.nextId} == s.dues;
    forall t | t in s.transactions
      ensures !HasLine(s.transactions[t], s.nextId)
      ensures s.transactions[t].dueId != Some(s.nextId)
    {
      assert TransactionOk(s.dues, s.transactions[t]);
    }
    assert Detach(s.transactions, {s.nextId}) == s.transactions;
  }

  /** Editing back to the old total, type and month restores an unpaid due. */
  lemma EditUndone(s: State, dueId: Id, edit: DueEdit, ownerId: Id)
    requires Inv(s) && EditDue(s, dueId, edit, ownerId).result.Ok? && s.dues[dueId].total > 0.0
    ensures var due := s.dues[dueId];
            var undo := DueEdit(Some(due.total), Some(due.dueType), Some(due.month));
            EditDue(EditDue(s, dueId, edit, ownerId).db, dueId, undo, ownerId) == Reply(s, Ok(()))
  {
    hide FreshIds, OccupancyOk, DebtOk, TransactionsOk, SettledOk, PendingOk, ReadingsOk, PaidInto;
    var due, edited := s.dues[dueId], EditDue(s, dueId, edit, ownerId).db;
    assert DueOk(due, PaidInto(s.payments, dueId));
    EditKeepsRest(s, dueId, edit, ownerId);
    assert edited.dues[dueId := due] == s.dues;
  }

  lemma EditKeepsRest(s: State, dueId: Id, edit: DueEdit, ownerId: Id)
    requires EditDue(s, dueId, edit, ownerId).result.Ok?
    ensures var due, edited := s.dues[dueId], EditDue(s, dueId, edit, ownerId).db;
            && dueId in edited.dues && edited.dues == s.dues[dueId := edited.dues[dueId]]
            && edited.dues[dueId].(total := due.total, balance := due.balance, dueType := due.dueType,
                month := due.month) == due
  {
  }
}
