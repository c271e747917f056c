/**
 How far owners are isolated from each other: whatever calls other owners make, the rooms, tenancies, readings, billing
 runs and metrics of a property stay as they are, and so do its dues unless a request to add dues names the property or
 a collection names one of its dues. Those three requests do not look at the owner.
 */
module Isolation {
  import opened Calendar
  import DateText
  import opened DueProofs
  import opened DueRules
  import opened ElectricityProofs
  import opened ElectricityRules
  import Flows
  import opened Invariants
  import MeterChain
  import Numbers
  import Proration
  import opened PaymentRules
  import ShiftMoney
  import opened System
  import opened Tables
  import opened TenancyHistory
  import opened TenancyProofs
  import opened TenancyRules
  import opened Text

  // ------------------------------------------------------------- what a property owns

  ghost predicate SameRoomsAt(a: Rooms, b: Rooms, p: Id) {
    forall r :: (r in a && a[r].propertyId == p) || (r in b && b[r].propertyId == p) ==>
        r in a && r in b && a[r] == b[r]
  }

  ghost predicate SameTenanciesAt(a: TenancyTable, b: TenancyTable, p: Id) {
    forall t :: (t in a && a[t].propertyId == p) || (t in b && b[t].propertyId == p) ==>
        t in a && t in b && a[t] == b[t]
  }

  ghost predicate SameDuesAt(a: Dues, b: Dues, p: Id) {
    forall d :: (d in a && a[d].propertyId == p) || (d in b && b[d].propertyId == p) ==>
        d in a && d in b && a[d] == b[d]
  }

  ghost predicate SameMetersAt(s: State, s': State, p: Id) {
    && (forall k :: k in s.mainReadings || k in s'.mainReadings ==>
          k.0 == p ==> k in s.mainReadings && k in s'.mainReadings && s.mainReadings[k] == s'.mainReadings[k])
    && (forall k :: k in s.runs || k in s'.runs ==> k.0 == p ==> k in s.runs && k in s'.runs && s.runs[k] == s'.runs[k])
    && (forall k :: (k in s.roomReadings && s.roomReadings[k].propertyId == p)
                    || (k in s'.roomReadings && s'.roomReadings[k].propertyId == p) ==>
          k in s.roomReadings && k in s'.roomReadings && s.roomReadings[k] == s'.roomReadings[k])
  }

  ghost predicate SameMetricsAt(a: MetricsTable, b: MetricsTable, p: Id) {
    forall m: Month :: ((p, m) in a <==> (p, m) in b) && ((p, m) in a ==> a[(p, m)] == b[(p, m)])
  }

  /** Nothing of the property's has changed. */
  ghost predicate Untouched(s: State, s': State, p: Id) {
    && SameRoomsAt(s.rooms, s'.rooms, p) && SameTenanciesAt(s.tenancies, s'.tenancies, p)
    && SameDuesAt(s.dues, s'.dues, p) && SameMetersAt(s, s', p) && SameMetricsAt(s.metrics, s'.metrics, p)
  }

  lemma UntouchedItself(s: State, p: Id)
    ensures Untouched(s, s, p)
  {
  }

  lemma UntouchedChain(a: State, b: State, c: State, p: Id)
    requires Untouched(a, b, p) && Untouched(b, c, p)
    ensures Untouched(a, c, p)
  {
    hide SameRoomsAt, SameTenanciesAt, SameDuesAt, SameMetersAt, SameMetricsAt;
    SameThroughout(a, b, c, p);
    DuesThroughout(a.dues, b.dues, c.dues, p);
    MetersThroughout(a, b, c, p);
  }

  lemma SameThroughout(a: State, b: State, c: State, p: Id)
    requires SameRoomsAt(a.rooms, b.rooms, p) && SameRoomsAt(b.rooms, c.rooms, p)
    requires SameTenanciesAt(a.tenancies, b.tenancies, p) && SameTenanciesAt(b.tenancies, c.tenancies, p)
    requires SameMetricsAt(a.metrics, b.metrics, p) && SameMetricsAt(b.metrics, c.metrics, p)
    ensures SameRoomsAt(a.rooms, c.rooms, p) && SameTenanciesAt(a.tenancies, c.tenancies, p)
    ensures SameMetricsAt(a.metrics, c.metrics, p)
  {
  }

  lemma DuesThroughout(a: Dues, b: Dues, c: Dues, p: Id)
    requires SameDuesAt(a, b, p) && SameDuesAt(b, c, p)
    ensures SameDuesAt(a, c, p)
  {
  }

  lemma MetersThroughout(a: State, b: State, c: State, p: Id)
    requires SameMetersAt(a, b, p) && SameMetersAt(b, c, p)
    ensures SameMetersAt(a, c, p)
  {
  }

  // ----------------------------------------------------------------- one row elsewhere

  lemma TenancyElsewhere(a: TenancyTable, t: Id, row: Tenancy, p: Id)
    requires row.propertyId != p && (t in a ==> a[t].propertyId != p)
    ensures SameTenanciesAt(a, a[t := row], p)
  {
  }

  lemma BedElsewhere(rooms: Rooms, r: Id, delta: int, p: Id)
    requires r in rooms && rooms[r].propertyId != p
    ensures SameRoomsAt(rooms, AddBeds(rooms, r, delta), p)
    ensures forall q :: q in rooms ==>
          q in AddBeds(rooms, r, delta) && AddBeds(rooms, r, delta)[q].propertyId == rooms[q].propertyId
  {
  }

  lemma RoomsTwice(a: Rooms, b: Rooms, c: Rooms, p: Id)
    requires SameRoomsAt(a, b, p) && SameRoomsAt(b, c, p)
    ensures SameRoomsAt(a, c, p)
  {
  }

  lemma DueElsewhere(dues: Dues, d: Id, due: Due, p: Id)
    requires due.propertyId != p && (d in dues ==> dues[d].propertyId != p)
    ensures SameDuesAt(dues, dues[d := due], p)
  {
  }

  lemma DuesElsewhere(s: State, dues: seq<Due>, p: Id)
    requires forall d :: d in s.dues ==> d < s.nextId
    requires forall i :: 0 <= i < |dues| ==> dues[i].propertyId != p
    ensures SameDuesAt(s.dues, InsertDues(s, dues).dues, p)
  {
    hide InsertDues;
    InsertDuesExact(s, dues);
    var after := InsertDues(s, dues).dues;
    forall d | d in after && d !in s.dues
      ensures after[d].propertyId != p
    {
      assert after[s.nextId + (d - s.nextId)] == dues[d - s.nextId];
    }
  }

  // --------------------------------------------------------------- the calls of owners

  /** The owner whose property the call asks for. */
  function CallerOf(step: Step): Option<Id> {
    match step
    case DoCreateTenant(r, _, _) => Some(r.ownerId)
    case DoShift(_, _, _, owner) => Some(owner)
    case DoDeleteTenant(_, _, _, owner, _) => Some(owner)
    case DoRevokeExit(_, owner) => Some(owner)
    case DoReActivate(_, owner, _) => Some(owner)
    case DoNotice(_, owner, _, _) => Some(owner)
    case DoCancelNotice(_, owner) => Some(owner)
    case DoApproveMoveOut(_, _, owner, _, _) => Some(owner)
    case DoConfirmMoveIn(_, owner, _) => Some(owner)
    case DoUpdateDetails(_, owner, _, _) => Some(owner)
    case DoCreateDue(_, _, _, owner, _, _, _) => Some(owner)
    case DoDeleteDue(_, owner) => Some(owner)
    case DoEditDue(_, _, owner) => Some(owner)
    case DoSubmitReadings(_, owner, _, _) => Some(owner)
    case _ => None
  }

  /** The due requests that every owner may make and whose service is not told which owner it is. */
  predicate TakesAnyOwner(step: Step) {
    step.DoAddDue? || step.DoAddRoomDue? || step.DoCollect?
  }

  /** The calls that an owner makes; tenants, the gateway and the billing queue make the others. */
  predicate MakesCall(ownerId: Id, step: Step) {
    CallerOf(step) == Some(ownerId) || TakesAnyOwner(step)
  }

  /** An accepted request to add dues in the property, or an accepted collection of a due of the property. */
  predicate ReachesDues(s: State, step: Step, p: Id) {
    match step
    case DoAddDue(found, tenant, property, _, _, _) =>
      property == p && found.Some? && IsTenancyOf(s, found.value, tenant, p)
    case DoAddRoomDue(order, room, property, _, _, _) =>
      property == p && order != [] && room in s.rooms && s.rooms[room].propertyId == p
    case DoCollect(d, amount) =>
      && d in s.dues && s.dues[d].propertyId == p && s.dues[d].status != Paid && s.dues[d].status != Waived
      && 1.0 <= Numbers.Ceil(amount) as real <= s.dues[d].balance
    case _ => false
  }

  /**
   An approval is for a request that the tenancy raised while it was in the request's property. A tenancy never changes
   its landlord (TenanciesContinue), so this is what the stored request says about it.
   */
  ghost predicate RequestStands(s: State, step: Step) {
    match step
    case DoApproveMoveOut(t, property, _, _, _) =>
      t in s.tenancies ==> Landlord(s.owners, property) == Landlord(s.owners, s.tenancies[t].propertyId)
    case _ => true
  }

  /** A status change of one tenancy in a property of the caller. */
  ghost predicate OwnTenancyOnly(s: State, s': State, t: Id, ownerId: Id) {
    && s'.rooms == s.rooms && s'.dues == s.dues && s'.metrics == s.metrics && s'.mainReadings == s.mainReadings
    && s'.roomReadings == s.roomReadings && s'.runs == s.runs
    && (|| s'.tenancies == s.tenancies
        || (&& t in s.tenancies && t in s'.tenancies && s'.tenancies == s.tenancies[t := s'.tenancies[t]]
            && s'.tenancies[t].propertyId == s.tenancies[t].propertyId && Owns(s, ownerId, s.tenancies[t].propertyId)))
  }

  lemma OwnTenancyIsElsewhere(s: State, s': State, t: Id, ownerId: Id, p: Id)
    requires OwnTenancyOnly(s, s', t, ownerId) && !Owns(s, ownerId, p)
    ensures Untouched(s, s', p)
  {
    UntouchedItself(s, p);
    if s'.tenancies != s.tenancies {
      TenancyElsewhere(s.tenancies, t, s'.tenancies[t], p);
    }
  }

  lemma NoticeElsewhere(s: State, t: Id, ownerId: Id, moveOut: Time, today: Time, p: Id)
    requires !Owns(s, ownerId, p)
    ensures Untouched(s, PutOnNoticePeriod(s, t, ownerId, moveOut, today).db, p)
  {
    hide Untouched, Owns, ValidMoveOut;
    OwnTenancyIsElsewhere(s, PutOnNoticePeriod(s, t, ownerId, moveOut, today).db, t, ownerId, p);
  }

  lemma CancelElsewhere(s: State, t: Id, ownerId: Id, p: Id)
    requires !Owns(s, ownerId, p)
    ensures Untouched(s, CancelNoticePeriod(s, t, ownerId).db, p)
  {
    hide Untouched, Owns;
    OwnTenancyIsElsewhere(s, CancelNoticePeriod(s, t, ownerId).db, t, ownerId, p);
  }

  lemma ApprovalElsewhere(s: State, t: Id, property: Id, ownerId: Id, moveOut: Time, today: Time, p: Id)
    requires !Owns(s, ownerId, p)
    requires t in s.tenancies ==> Landlord(s.owners, property) == Landlord(s.owners, s.tenancies[t].propertyId)
    ensures Untouched(s, ApproveMoveOut(s, t, property, ownerId, moveOut, today).db, p)
  {
    hide Untouched, ValidMoveOut;
    OwnTenancyIsElsewhere(s, ApproveMoveOut(s, t, property, ownerId, moveOut, today).db, t, ownerId, p);
  }

  lemma MoveInElsewhere(s: State, t: Id, ownerId: Id, today: Time, p: Id)
    requires !Owns(s, ownerId, p)
    ensures Untouched(s, ConfirmMoveIn(s, t, ownerId, today).db, p)
  {
    hide Untouched, Owns, DateText.ToDateOnly;
    OwnTenancyIsElsewhere(s, ConfirmMoveIn(s, t, ownerId, today).db, t, ownerId, p);
  }

  lemma DetailsElsewhere(s: State, t: Id, ownerId: Id, moveOut: Option<Option<Time>>, today: Time, p: Id)
    requires !Owns(s, ownerId, p)
    ensures Untouched(s, UpdateTenancyDetails(s, t, ownerId, moveOut, today).db, p)
  {
    hide Untouched, Owns, UpdateTenancyDetails, OwnTenancyOnly;
    DetailsOwned(s, t, ownerId, moveOut, today);
    OwnTenancyIsElsewhere(s, UpdateTenancyDetails(s, t, ownerId, moveOut, today).db, t, ownerId, p);
  }

  lemma DetailsOwned(s: State, t: Id, ownerId: Id, moveOut: Option<Option<Time>>, today: Time)
    ensures OwnTenancyOnly(s, UpdateTenancyDetails(s, t, ownerId, moveOut, today).db, t, ownerId)
  {
    hide Owns, UpdateTenancyDetails;
    DetailsOutcome(s, t, ownerId, moveOut, today);
    if UpdateTenancyDetails(s, t, ownerId, moveOut, today).db != s {
      DetailsNeedOwner(s, t, ownerId, moveOut, today);
    }
  }

  lemma DetailsNeedOwner(s: State, t: Id, ownerId: Id, moveOut: Option<Option<Time>>, today: Time)
    requires UpdateTenancyDetails(s, t, ownerId, moveOut, today).db != s
    ensures t in s.tenancies && Owns(s, ownerId, s.tenancies[t].propertyId)
  {
    hide Owns, SetTenancy, ValidMoveOut;
  }

  // ---------------------------------------------------------- exits, returns, onboarding

  /** One bed and one tenancy of a property of the caller. */
  ghost predicate OwnBedOnly(s: State, s': State, t: Id, ownerId: Id, delta: int) {
    && t in s.tenancies && t in s'.tenancies && s'.tenancies == s.tenancies[t := s'.tenancies[t]]
    && s'.tenancies[t].propertyId == s.tenancies[t].propertyId && Owns(s, ownerId, s.tenancies[t].propertyId)
    && s.tenancies[t].roomId in s.rooms && s'.rooms == AddBeds(s.rooms, s.tenancies[t].roomId, delta)
    && s'.dues == s.dues && s'.metrics == s.metrics && s'.mainReadings == s.mainReadings
    && s'.roomReadings == s.roomReadings && s'.runs == s.runs
  }

  lemma OwnBedIsElsewhere(s: State, s': State, t: Id, ownerId: Id, delta: int, p: Id)
    requires Inv(s) && OwnBedOnly(s, s', t, ownerId, delta) && !Owns(s, ownerId, p)
    ensures Untouched(s, s', p)
  {
    hide Inv, AddBeds, SameRoomsAt, SameTenanciesAt;
    UntouchedItself(s, p);
    RowOk(s, t);
    TenancyElsewhere(s.tenancies, t, s'.tenancies[t], p);
    BedElsewhere(s.rooms, s.tenancies[t].roomId, delta, p);
  }

  lemma ExitElsewhere(s: State, found: Option<Id>, tenantId: Id, propertyId: Id, ownerId: Id, now: Time, p: Id)
    requires Inv(s) && !Owns(s, ownerId, p)
    ensures Untouched(s, DeleteTenant(s, found, tenantId, propertyId, ownerId, now).db, p)
  {
    hide Inv, Untouched, OpenDues, AddBeds;
    UntouchedItself(s, p);
    if DeleteTenant(s, found, tenantId, propertyId, ownerId, now).result.Ok? {
      OwnBedIsElsewhere(s, DeleteTenant(s, found, tenantId, propertyId, ownerId, now).db, found.value, ownerId, -1, p);
    }
  }

  lemma RevokeElsewhere(s: State, t: Id, ownerId: Id, p: Id)
    requires Inv(s) && !Owns(s, ownerId, p)
    ensures Untouched(s, RevokeTenancyExit(s, t, ownerId).db, p)
  {
    hide Inv, Untouched, AddBeds, Owns;
    UntouchedItself(s, p);
    if RevokeTenancyExit(s, t, ownerId).result.Ok? {
      OwnBedIsElsewhere(s, RevokeTenancyExit(s, t, ownerId).db, t, ownerId, 1, p);
    }
  }

  lemma ReActivateElsewhere(s: State, propertyId: Id, ownerId: Id, t: Id, p: Id)
    requires Inv(s) && !Owns(s, ownerId, p)
    ensures Untouched(s, ReActiveTenancy(s, propertyId, ownerId, t).db, p)
  {
    hide Inv, Untouched, AddBeds, Owns;
    UntouchedItself(s, p);
    if ReActiveTenancy(s, propertyId, ownerId, t).result.Ok? {
      OwnBedIsElsewhere(s, ReActiveTenancy(s, propertyId, ownerId, t).db, t, ownerId, 1, p);
    }
  }

  /** The tables that onboarding leaves alone. */
  lemma ArrivalLeaves(s: State, r: Onboarding, today: Time)
    requires r.roomId in s.rooms
    ensures var s' := OpenTenancy(s, r, today);
            && s'.metrics == s.metrics && s'.mainReadings == s.mainReadings
            && s'.roomReadings == s.roomReadings && s'.runs == s.runs && s'.dues == s.dues
            && s'.rooms == AddBeds(s.rooms, r.roomId, 1)
            && s'.nextId - 1 in s'.tenancies && s'.tenancies[s'.nextId - 1].propertyId == r.propertyId
  {
    hide AddBeds, Proration.GetFirstCycleEnd;
  }

  lemma FirstDuesAt(r: Onboarding, t: Id, month: Month)
    ensures forall i :: 0 <= i < |FirstDues(r, t, month)| ==> FirstDues(r, t, month)[i].propertyId == r.propertyId
  {
    hide Proration.FirstRentCharge, Numbers.Ceil;
  }

  lemma OnboardElsewhere(s: State, r: Onboarding, today: Time, month: Month, p: Id)
    requires Inv(s) && !Owns(s, r.ownerId, p)
    ensures Untouched(s, CreateTenant(s, r, today, month).db, p)
  {
    hide Inv, InsertDues, OpenTenancy, FirstDues, Addable, AddBeds, CreateTenant, SameRoomsAt, SameTenanciesAt,
         SameDuesAt;
    UntouchedItself(s, p);
    if CreateTenant(s, r, today, month).result.Ok? {
      Flows.AdmittedRequest(s, r, today, month);
      OnboardedDues(s, r, today, month);
      var arrived := OpenTenancy(s, r, today);
      var t := arrived.nextId - 1;
      ArrivalLeaves(s, r, today);
      ArrivedTenancy(s, r, today);
      TenancyElsewhere(s.tenancies, t, arrived.tenancies[t], p);
      BedElsewhere(s.rooms, r.roomId, 1, p);
      DuesAreFresh(arrived);
      FirstDuesAt(r, t, month);
      DuesElsewhere(arrived, FirstDues(r, t, month), p);
    } else {
      OnboardingRefused(s, r, today, month);
    }
  }

  lemma OnboardingRefused(s: State, r: Onboarding, today: Time, month: Month)
    requires CreateTenant(s, r, today, month).result.Err?
    ensures CreateTenant(s, r, today, month).db == s
  {
    hide OpenTenancy, InsertDues, FirstDues, OnboardPreflight;
  }

  // ----------------------------------------------------------------------- room shifts

  lemma MovedBedElsewhere(rooms: Rooms, a: Id, b: Id, p: Id)
    requires a in rooms && b in rooms && rooms[a].propertyId != p && rooms[b].propertyId != p
    ensures SameRoomsAt(rooms, MoveBed(rooms, a, b), p)
  {
    hide AddBeds, SameRoomsAt;
    BedElsewhere(rooms, a, -1, p);
    BedElsewhere(AddBeds(rooms, a, -1), b, 1, p);
    RoomsTwice(rooms, AddBeds(rooms, a, -1), MoveBed(rooms, a, b), p);
  }

  lemma ReassignedElsewhere(dues: Dues, moved: set<Id>, home: Id, there: Id, p: Id)
    requires home != p && there != p && forall d :: d in moved ==> d in dues && dues[d].propertyId == home
    ensures SameDuesAt(dues, Reassign(dues, moved, there), p)
  {
  }

  lemma BucketsElsewhere(metrics: MetricsTable, home: Id, there: Id, buckets: map<Month, Metrics>, p: Id)
    requires home != p && there != p
    ensures SameMetricsAt(metrics, MoveBuckets(metrics, home, there, buckets), p)
  {
    hide MoveBuckets;
    forall m: Month {
      ShiftMoney.MovedRow(metrics, home, there, buckets, (p, m));
    }
  }

  lemma ShiftElsewhere(s: State, t: Id, room: Id, property: Option<Id>, owner: Id, p: Id)
    requires Inv(s) && !Owns(s, owner, p)
    ensures Untouched(s, ShiftTenantRoom(s, t, room, property, owner).db, p)
  {
    hide Inv, Untouched, ShiftPreflight, ShiftCommit, MoveInside, MoveAcross;
    UntouchedItself(s, p);
    if ShiftPreflight(s, t, room, property, owner).Ok? {
      var plan := ShiftPreflight(s, t, room, property, owner).value;
      ShiftFits(s, t, room, property, owner);
      if ShiftCommit(s, plan).result.Err? {
        ShiftRefused(s, plan);
      } else if plan.newProperty == plan.oldProperty {
        ShiftedInside(s, plan);
        InsideElsewhere(s, plan, p);
      } else {
        ShiftedAcross(s, plan);
        AcrossElsewhere(s, plan, p);
      }
    }
  }

  lemma InsideElsewhere(s: State, plan: ShiftPlan, p: Id)
    requires PlanFits(s, plan) && PlanReadable(s, plan) && plan.newProperty == plan.oldProperty != p
    requires s.rooms[plan.oldRoom].propertyId == plan.oldProperty
    ensures Untouched(s, MoveInside(s, plan), p)
  {
    hide MoveBed, SameRoomsAt, SameTenanciesAt;
    UntouchedItself(s, p);
    MovedBedElsewhere(s.rooms, plan.oldRoom, plan.newRoom, p);
    TenancyElsewhere(s.tenancies, plan.tenancyId, s.tenancies[plan.tenancyId].(roomId := plan.newRoom), p);
  }

  lemma AcrossElsewhere(s: State, plan: ShiftPlan, p: Id)
    requires Inv(s) && PlanFits(s, plan) && PlanReadable(s, plan) && plan.newProperty != p && plan.oldProperty != p
    requires s.rooms[plan.oldRoom].propertyId == plan.oldProperty
    ensures Untouched(s, MoveAcross(s, plan), p)
  {
    hide Inv, MoveBed, SameRoomsAt, SameTenanciesAt, SameDuesAt, SameMetricsAt, OpenDues, Reassign, MoveBuckets,
         Buckets;
    UntouchedItself(s, p);
    var moved := OpenDues(s.dues, plan.tenancyId);
    MovedBedElsewhere(s.rooms, plan.oldRoom, plan.newRoom, p);
    TenancyElsewhere(s.tenancies, plan.tenancyId,
                     s.tenancies[plan.tenancyId].(roomId := plan.newRoom, propertyId := plan.newProperty), p);
    OpenDuesAtHome(s, plan.tenancyId);
    ReassignedElsewhere(s.dues, moved, plan.oldProperty, plan.newProperty, p);
    BucketsElsewhere(s.metrics, plan.oldProperty, plan.newProperty, Buckets(s.dues, moved), p);
  }

  // --------------------------------------------------------------------- dues, readings

  /** Only dues have changed, and none of the property's. */
  lemma DuesAside(s: State, s': State, p: Id)
    requires s'.rooms == s.rooms && s'.tenancies == s.tenancies && s'.metrics == s.metrics
    requires s'.mainReadings == s.mainReadings && s'.roomReadings == s.roomReadings && s'.runs == s.runs
    requires SameDuesAt(s.dues, s'.dues, p)
    ensures Untouched(s, s', p)
  {
    hide SameDuesAt;
  }

  lemma NewDueElsewhere(s: State, found: Option<Id>, tenantId: Id, propertyId: Id, ownerId: Id, dueType: DueType,
          amount: real, month: Month, p: Id)
    requires Inv(s) && !Owns(s, ownerId, p)
    ensures Untouched(s, CreateDueForTenant(s, found, tenantId, propertyId, ownerId, dueType, amount, month).db, p)
  {
    hide Inv, Untouched, SameDuesAt, IsTenancyOf, NewDue;
    UntouchedItself(s, p);
    if CreateDueForTenant(s, found, tenantId, propertyId, ownerId, dueType, amount, month).result.Ok? {
      var due := NewDue(found.value, propertyId, dueType, month, amount);
      DuesAreFresh(s);
      DueAt(found.value, propertyId, dueType, month, amount);
      DueElsewhere(s.dues, s.nextId, due, p);
      DuesAside(s, InsertDue(s, due), p);
    }
  }

  lemma DueAt(tenancyId: Id, propertyId: Id, dueType: DueType, month: Month, amount: Money)
    ensures NewDue(tenancyId, propertyId, dueType, month, amount).propertyId == propertyId
  {
  }

  lemma EditElsewhere(s: State, d: Id, edit: DueEdit, ownerId: Id, p: Id)
    requires !Owns(s, ownerId, p)
    ensures Untouched(s, EditDue(s, d, edit, ownerId).db, p)
  {
    hide Untouched, SameDuesAt, EditDue, Owns;
    UntouchedItself(s, p);
    EditedRow(s, d, edit, ownerId);
    if EditDue(s, d, edit, ownerId).result.Ok? {
      var s' := EditDue(s, d, edit, ownerId).db;
      DueElsewhere(s.dues, d, s'.dues[d], p);
      DuesAside(s, s', p);
    }
  }

  lemma EditedRow(s: State, d: Id, edit: DueEdit, ownerId: Id)
    ensures var r := EditDue(s, d, edit, ownerId);
            && (r.result.Err? ==> r.db == s)
            && (r.result.Ok? ==>
                  && d in s.dues && Owns(s, ownerId, s.dues[d].propertyId) && d in r.db.dues
                  && r.db.dues == s.dues[d := r.db.dues[d]] && r.db.dues[d].propertyId == s.dues[d].propertyId)
  {
    hide Owns;
  }

  lemma DeletionElsewhere(s: State, d: Id, ownerId: Id, p: Id)
    requires !Owns(s, ownerId, p)
    ensures Untouched(s, DeleteDue(s, d, ownerId).db, p)
  {
    hide Untouched, SameDuesAt, Referenced, Owns;
    UntouchedItself(s, p);
    if DeleteDue(s, d, ownerId).result.Ok? {
      GoneElsewhere(s.dues, d, p);
      DuesAside(s, RemoveDues(s, {d}), p);
    }
  }

  lemma GoneElsewhere(dues: Dues, d: Id, p: Id)
    requires d in dues && dues[d].propertyId != p
    ensures SameDuesAt(dues, dues - {d}, p)
  {
  }

  lemma SubmissionElsewhere(s: State, q: Id, ownerId: Id, x: Submission, now: Month, p: Id)
    requires Inv(s) && !Owns(s, ownerId, p)
    ensures Untouched(s, SubmitAllReadings(s, q, ownerId, x, now).db, p)
  {
    hide Inv, Untouched, AcceptsReadings, StoreReadings;
    UntouchedItself(s, p);
    if SubmitAllReadings(s, q, ownerId, x, now).result.Ok? {
      StoredElsewhere(s, q, x, now, p);
    }
  }

  lemma StoredElsewhere(s: State, q: Id, x: Submission, now: Month, p: Id)
    requires Inv(s) && AcceptsReadings(s, q, x, now) && q != p
    ensures Untouched(s, StoreReadings(s, q, x), p)
  {
    hide Inv, SameRoomsAt, SameTenanciesAt, SameDuesAt, SameMetersAt, SameMetricsAt, StoreReadings, AcceptsReadings;
    UntouchedItself(s, p);
    StoredTables(s, q, x);
    StoredMeters(s, q, x, now, p);
  }

  lemma StoredTables(s: State, q: Id, x: Submission)
    ensures var s' := StoreReadings(s, q, x);
            && s'.rooms == s.rooms && s'.tenancies == s.tenancies && s'.dues == s.dues && s'.metrics == s.metrics
            && (q, x.month) in s'.runs && s'.runs == s.runs[(q, x.month) := s'.runs[(q, x.month)]]
            && s'.roomReadings == StoreRooms(s.roomReadings, q, x.month, x.rooms)
  {
    hide StoreRooms, RoomUnits;
  }

  lemma StoredMeters(s: State, q: Id, x: Submission, now: Month, p: Id)
    requires Inv(s) && AcceptsReadings(s, q, x, now) && q != p
    ensures SameMetersAt(s, StoreReadings(s, q, x), p)
  {
    hide Inv, AcceptsReadings, StoreReadings, StoreRooms, MeteredRooms;
    var s' := StoreReadings(s, q, x);
    StoredTables(s, q, x);
    MeterChain.SubmissionScope(s, q, x, now);
    MeterChain.SubmittedAreMetered(s, q, x, now);
    AcceptedRoomsGoForward(s, q, x, now);
    StoreRoomsAt(s.roomReadings, q, x.month, x.rooms);
    forall k | k in s'.roomReadings && k.1 == x.month && k.0 in MeteredRooms(s, q)
      ensures s'.roomReadings[k].propertyId == q
      ensures k in s.roomReadings ==> s.roomReadings[k].propertyId == q
    {
      assert k == (k.0, x.month);
      MeterChain.RoomReadingsHere(s, q, k.0);
    }
  }

  // --------------------------------------------------- due requests that take any owner

  /** Nothing of the property's has changed but its dues: none is gone, and old ones have at most been paid into. */
  ghost predicate PaidIntoOnly(s: State, s': State, p: Id) {
    && SameRoomsAt(s.rooms, s'.rooms, p) && SameTenanciesAt(s.tenancies, s'.tenancies, p)
    && SameMetersAt(s, s', p) && SameMetricsAt(s.metrics, s'.metrics, p) && DuesGrow(s.dues, s'.dues, p)
  }

  ghost predicate DuesGrow(a: Dues, b: Dues, p: Id) {
    forall d :: d in a && a[d].propertyId == p ==> d in b && Grown(a[d], b[d])
  }

  predicate Grown(a: Due, b: Due) {
    b.paid >= a.paid && b == a.(paid := b.paid, balance := b.balance, status := b.status)
  }

  /** The property has a new due, or more was paid into one. */
  ghost predicate DuesReached(a: Dues, b: Dues, p: Id) {
    exists d :: d in b && b[d].propertyId == p && (d !in a || a[d].propertyId != p || b[d].paid > a[d].paid)
  }

  lemma ReachedIsTouched(s: State, s': State, p: Id)
    requires DuesReached(s.dues, s'.dues, p)
    ensures !Untouched(s, s', p)
  {
    var d :| d in s'.dues && s'.dues[d].propertyId == p
             && (d !in s.dues || s.dues[d].propertyId != p || s'.dues[d].paid > s.dues[d].paid);
  }

  /** Nothing that other owners do takes back what one of them did to the dues. */
  lemma ReachedForGood(a: Dues, b: Dues, c: Dues, p: Id)
    requires DuesGrow(a, b, p) && DuesGrow(b, c, p)
    ensures DuesGrow(a, c, p)
    ensures DuesReached(a, b, p) || DuesReached(b, c, p) ==> DuesReached(a, c, p)
  {
  }

  lemma UntouchedIsPaidIntoOnly(s: State, s': State, p: Id)
    requires Untouched(s, s', p)
    ensures PaidIntoOnly(s, s', p)
  {
  }

  lemma PaidIntoOnlyChain(a: State, b: State, c: State, p: Id)
    requires PaidIntoOnly(a, b, p) && PaidIntoOnly(b, c, p)
    ensures PaidIntoOnly(a, c, p)
    ensures DuesReached(a.dues, b.dues, p) || DuesReached(b.dues, c.dues, p) ==> DuesReached(a.dues, c.dues, p)
  {
    hide SameRoomsAt, SameTenanciesAt, SameMetersAt, SameMetricsAt, DuesGrow, DuesReached;
    ReachedForGood(a.dues, b.dues, c.dues, p);
    SameThroughout(a, b, c, p);
    MetersThroughout(a, b, c, p);
  }

  /** What a due request does to a property: it reaches the dues, or nothing. */
  ghost predicate ReachesExactly(s: State, s': State, p: Id, reaches: bool) {
    && PaidIntoOnly(s, s', p)
    && (if reaches then DuesReached(s.dues, s'.dues, p) else Untouched(s, s', p))
  }

  lemma UntouchedReachesNothing(s: State, s': State, p: Id)
    requires Untouched(s, s', p)
    ensures ReachesExactly(s, s', p, false)
  {
    hide Untouched, PaidIntoOnly;
    UntouchedIsPaidIntoOnly(s, s', p);
  }

  /** Only dues have changed: those of the property have grown, and exactly if it was reached. */
  lemma DuesOnly(s: State, s': State, p: Id, reaches: bool)
    requires s'.rooms == s.rooms && s'.tenancies == s.tenancies && s'.metrics == s.metrics
    requires s'.mainReadings == s.mainReadings && s'.roomReadings == s.roomReadings && s'.runs == s.runs
    requires if reaches then DuesGrow(s.dues, s'.dues, p) && DuesReached(s.dues, s'.dues, p)
             else SameDuesAt(s.dues, s'.dues, p)
    ensures ReachesExactly(s, s', p, reaches)
  {
    hide SameDuesAt, DuesGrow, DuesReached;
    if !reaches {
      DuesAside(s, s', p);
      UntouchedReachesNothing(s, s', p);
    }
  }

  /** New dues in the property reach it; new dues elsewhere do not. */
  lemma NewDuesReach(s: State, dues: seq<Due>, q: Id, p: Id)
    requires Inv(s) && dues != [] && forall i :: 0 <= i < |dues| ==> dues[i].propertyId == q
    ensures ReachesExactly(s, InsertDues(s, dues), p, q == p)
  {
    hide Inv, InsertDues, ReachesExactly;
    var s' := InsertDues(s, dues);
    DuesAreFresh(s);
    InsertDuesExact(s, dues);
    if q == p {
      assert s.nextId + 0 in s'.dues && s'.dues[s.nextId + 0] == dues[0];
    } else {
      DuesElsewhere(s, dues, p);
    }
    DuesOnly(s, s', p, q == p);
  }

  lemma AddedDueReaches(s: State, found: Option<Id>, tenant: Id, q: Id, dueType: DueType, amount: real, month: Month,
          p: Id)
    requires Inv(s)
    ensures ReachesExactly(s, AddDueToTenant(s, found, tenant, q, dueType, amount, month).db, p,
                           ReachesDues(s, DoAddDue(found, tenant, q, dueType, amount, month), p))
  {
    hide Inv, ReachesExactly, IsTenancyOf, Numbers.Ceil, Untouched;
    UntouchedItself(s, p);
    UntouchedReachesNothing(s, s, p);
    if found.Some? && IsTenancyOf(s, found.value, tenant, q) {
      var due := NewDue(found.value, q, dueType, month, Numbers.Ceil(amount) as real);
      Flows.InsertedOne(s, due);
      NewDuesReach(s, [due], q, p);
    }
  }

  lemma RoomDuesReach(s: State, order: seq<Id>, room: Id, q: Id, dueType: DueType, amount: real, month: Month, p: Id)
    requires Inv(s)
    ensures ReachesExactly(s, AddDueToRoom(s, order, room, q, dueType, amount, month).db, p,
                           ReachesDues(s, DoAddRoomDue(order, room, q, dueType, amount, month), p))
  {
    hide Inv, ReachesExactly, ShareOf, InsertDues, Untouched;
    UntouchedItself(s, p);
    UntouchedReachesNothing(s, s, p);
    if room in s.rooms && s.rooms[room].propertyId == q && order != [] {
      NewDuesReach(s, RoomDues(order, q, dueType, month, ShareOf(amount, |order|) as real), q, p);
    }
  }

  lemma CollectionReaches(s: State, d: Id, amount: real, p: Id)
    requires Inv(s)
    ensures ReachesExactly(s, CollectDue(s, d, amount).db, p, ReachesDues(s, DoCollect(d, amount), p))
  {
    hide Inv, ReachesExactly, Untouched, RecordPayment, Numbers.Ceil;
    UntouchedItself(s, p);
    UntouchedReachesNothing(s, s, p);
    if CollectDue(s, d, amount).result.Ok? {
      RecordReaches(s, d, Numbers.Ceil(amount) as real, p);
    }
  }

  lemma RecordReaches(s: State, d: Id, amount: Money, p: Id)
    requires d in s.dues && amount > 0.0
    ensures ReachesExactly(s, RecordPayment(s, d, s.dues[d], amount), p, s.dues[d].propertyId == p)
  {
    hide ReachesExactly;
    var s' := RecordPayment(s, d, s.dues[d], amount);
    assert s'.dues[d].propertyId == s.dues[d].propertyId && s'.dues[d].paid > s.dues[d].paid;
    DuesOnly(s, s', p, s.dues[d].propertyId == p);
  }

  // ------------------------------------------------------------------------- whole runs

  lemma StepElsewhere(s: State, step: Step, p: Id)
    requires Inv(s) && Allowed(s, step) && RequestStands(s, step)
    requires CallerOf(step).Some? && !Owns(s, CallerOf(step).value, p)
    ensures Untouched(s, Apply(s, step), p)
  {
    hide Inv, Untouched, Owns, CreateTenant, ShiftTenantRoom, DeleteTenant, RevokeTenancyExit, ReActiveTenancy,
         PutOnNoticePeriod, CancelNoticePeriod, ApproveMoveOut, ConfirmMoveIn, UpdateTenancyDetails, AddDueToTenant,
         AddDueToRoom, CreateDueForTenant, DeleteDue, EditDue, CollectDue, InitiatePayment, MakePayment, HandleWebhook,
         SubmitAllReadings, RunBilling;
    match step
    case DoCreateTenant(r, today, month) => OnboardElsewhere(s, r, today, month, p);
    case DoShift(t, room, property, owner) => ShiftElsewhere(s, t, room, property, owner, p);
    case DoDeleteTenant(found, tenant, property, owner, now) =>
      ExitElsewhere(s, found, tenant, property, owner, now, p);
    case DoRevokeExit(t, owner) => RevokeElsewhere(s, t, owner, p);
    case DoReActivate(property, owner, t) => ReActivateElsewhere(s, property, owner, t, p);
    case DoNotice(t, owner, moveOut, today) => NoticeElsewhere(s, t, owner, moveOut, today, p);
    case DoCancelNotice(t, owner) => CancelElsewhere(s, t, owner, p);
    case DoApproveMoveOut(t, property, owner, moveOut, today) =>
      ApprovalElsewhere(s, t, property, owner, moveOut, today, p);
    case DoConfirmMoveIn(t, owner, today) => MoveInElsewhere(s, t, owner, today, p);
    case DoUpdateDetails(t, owner, moveOut, today) => DetailsElsewhere(s, t, owner, moveOut, today, p);
    case DoCreateDue(found, tenant, property, owner, dueType, amount, month) =>
      NewDueElsewhere(s, found, tenant, property, owner, dueType, amount, month, p);
    case DoDeleteDue(d, owner) => DeletionElsewhere(s, d, owner, p);
    case DoEditDue(d, edit, owner) => EditElsewhere(s, d, edit, owner, p);
    case DoSubmitReadings(property, owner, x, now) => SubmissionElsewhere(s, property, owner, x, now, p);
  }

  /** A call of an owner who does not own the property: it reaches the property's dues, or nothing of the property. */
  lemma StepReachesExactly(s: State, step: Step, ownerId: Id, p: Id)
    requires Inv(s) && Allowed(s, step) && RequestStands(s, step)
    requires MakesCall(ownerId, step) && !Owns(s, ownerId, p)
    ensures ReachesExactly(s, Apply(s, step), p, ReachesDues(s, step, p))
    ensures Untouched(s, Apply(s, step), p) <==> !ReachesDues(s, step, p)
  {
    hide Inv, Untouched, Owns, DuesReached, PaidIntoOnly;
    if TakesAnyOwner(step) {
      DueRequestReaches(s, step, p);
      if ReachesDues(s, step, p) {
        ReachedIsTouched(s, Apply(s, step), p);
      }
    } else {
      StepElsewhere(s, step, p);
      UntouchedReachesNothing(s, Apply(s, step), p);
      NoOtherReaches(s, step, p);
    }
  }

  lemma NoOtherReaches(s: State, step: Step, p: Id)
    requires !TakesAnyOwner(step)
    ensures !ReachesDues(s, step, p)
  {
  }

  lemma DueRequestReaches(s: State, step: Step, p: Id)
    requires Inv(s) && Allowed(s, step) && TakesAnyOwner(step)
    ensures ReachesExactly(s, Apply(s, step), p, ReachesDues(s, step, p))
  {
    hide Inv, ReachesExactly, ReachesDues, AddDueToTenant, AddDueToRoom, CollectDue;
    match step
    case DoAddDue(found, tenant, q, dueType, amount, month) =>
      AddedDueReaches(s, found, tenant, q, dueType, amount, month, p);
    case DoAddRoomDue(order, room, q, dueType, amount, month) =>
      RoomDuesReach(s, order, room, q, dueType, amount, month, p);
    case DoCollect(d, amount) => CollectionReaches(s, d, amount, p);
  }

  /** Every step of the run is a call of an owner who does not own the property. */
  ghost predicate OthersOnly(states: seq<State>, steps: seq<Step>, callers: seq<Id>, p: Id)
    requires |states| == |steps| + 1 && |callers| == |steps|
  {
    forall i :: 0 <= i < |steps| ==>
      MakesCall(callers[i], steps[i]) && !Owns(states[0], callers[i], p) && RequestStands(states[i], steps[i])
  }

  /**
   However many calls other owners make, in whatever order: rooms, tenancies, readings, runs and metrics of the property
   are untouched, none of its dues is gone or asks for anything else, and all of it is untouched exactly if none of the
   calls was an accepted due request that names the property or one of its dues.
   */
  lemma {:induction false} OwnersAreIsolated(states: seq<State>, steps: seq<Step>, callers: seq<Id>, p: Id)
    requires IsRun(states, steps) && Inv(states[0])
    requires |callers| == |steps| && OthersOnly(states, steps, callers, p)
    ensures PaidIntoOnly(states[0], states[|steps|], p)
    ensures Untouched(states[0], states[|steps|], p)
            <==> forall i :: 0 <= i < |steps| ==> !ReachesDues(states[i], steps[i], p)
  {
    hide Inv, Apply, Allowed, Untouched, PaidIntoOnly, RequestStands, MakesCall, ReachesDues, DuesReached;
    RunReachesExactly(states, steps, callers, p);
    if exists i :: 0 <= i < |steps| && ReachesDues(states[i], steps[i], p) {
      ReachedIsTouched(states[0], states[|steps|], p);
    }
  }

  lemma {:induction false} RunReachesExactly(states: seq<State>, steps: seq<Step>, callers: seq<Id>, p: Id)
    requires IsRun(states, steps) && Inv(states[0])
    requires |callers| == |steps| && OthersOnly(states, steps, callers, p)
    ensures PaidIntoOnly(states[0], states[|steps|], p)
    ensures if exists i :: 0 <= i < |steps| && ReachesDues(states[i], steps[i], p)
            then DuesReached(states[0].dues, states[|steps|].dues, p)
            else Untouched(states[0], states[|steps|], p)
    decreases |steps|
  {
    hide Inv, Apply, Allowed, Untouched, PaidIntoOnly, RequestStands, MakesCall, ReachesDues, DuesReached;
    if steps == [] {
      UntouchedItself(states[0], p);
      UntouchedIsPaidIntoOnly(states[0], states[0], p);
    } else {
      var n := |steps| - 1;
      var front, before := states[..n + 1], steps[..n];
      assert forall i :: 0 <= i < n ==> front[i] == states[i] && before[i] == steps[i];
      assert front[n] == states[n];
      RunsKeepInv(states, steps);
      TenanciesContinue(states, steps, 0, n);
      RunReachesExactly(front, before, callers[..n], p);
      StepReachesExactly(states[n], steps[n], callers[n], p);
      PaidIntoOnlyChain(states[0], states[n], states[n + 1], p);
      if forall i :: 0 <= i < |steps| ==> !ReachesDues(states[i], steps[i], p) {
        assert Untouched(states[0], states[n], p);
        UntouchedChain(states[0], states[n], states[n + 1], p);
      }
    }
  }

  /**
   The failing calls: whoever has just been onboarded, an owner of other properties adds a due for the new tenant, and
   then collects it.
   */
  lemma AnyOwnerAddsAndCollects(s: State, r: Onboarding, today: Time, month: Month, dueType: DueType, amount: real,
          ownerId: Id)
    requires Inv(s) && CreateTenant(s, r, today, month).result.Ok? && ownerId != r.ownerId && amount > 0.0
    ensures var s0, p, t := CreateTenant(s, r, today, month).db, r.propertyId,
                            CreateTenant(s, r, today, month).result.value;
            && t in s0.tenancies && !Owns(s0, ownerId, p)
            && var add := DoAddDue(Some(t), s0.tenancies[t].tenantId, p, dueType, amount, month);
            && Allowed(s0, add) && MakesCall(ownerId, add) && !Untouched(s0, Apply(s0, add), p)
            && var s1, collect := Apply(s0, add), DoCollect(s0.nextId, amount);
            && Allowed(s1, collect) && MakesCall(ownerId, collect) && !Untouched(s1, Apply(s1, collect), p)
  {
    hide Inv, CreateTenant, Untouched, IsTenancyOf, Apply, ReachesExactly, DuesReached, Numbers.Ceil, RequestStands,
         AddDueToTenant;
    var s0, p, t := CreateTenant(s, r, today, month).db, r.propertyId, CreateTenant(s, r, today, month).result.value;
    CreateTenantKeepsInv(s, r, today, month);
    Flows.ArrivedTenancyIsExitable(s, r, today, month);
    CeilOfPositive(amount);
    var add := DoAddDue(Some(t), s0.tenancies[t].tenantId, p, dueType, amount, month);
    AnyRequestStands(s0, add);
    StepReachesExactly(s0, add, ownerId, p);
    StepKeepsInv(s0, add);
    var s1, collect := Apply(s0, add), DoCollect(s0.nextId, amount);
    AddedRow(s0, Some(t), s0.tenancies[t].tenantId, p, dueType, amount, month);
    AnyRequestStands(s1, collect);
    StepReachesExactly(s1, collect, ownerId, p);
  }

  lemma CeilOfPositive(amount: real)
    requires amount > 0.0
    ensures Numbers.Ceil(amount) >= 1
  {
  }

  lemma AnyRequestStands(s: State, step: Step)
    requires TakesAnyOwner(step)
    ensures RequestStands(s, step)
  {
  }

  lemma AddedRow(s: State, found: Option<Id>, tenant: Id, p: Id, dueType: DueType, amount: real, month: Month)
    requires found.Some? && IsTenancyOf(s, found.value, tenant, p)
    ensures var s' := Apply(s, DoAddDue(found, tenant, p, dueType, amount, month));
            && s'.dues == s.dues[s.nextId := NewDue(found.value, p, dueType, month, Numbers.Ceil(amount) as real)]
            && s'.owners == s.owners
  {
    hide IsTenancyOf, Numbers.Ceil;
  }
}
