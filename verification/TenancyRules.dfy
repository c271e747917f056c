/**
 Tenancies and beds: onboarding and room shifts in two phases (an unlocked pre-flight read and a
 transaction that re-checks under row locks), exits, and the status changes in between.
 */
module TenancyRules {
  import opened Calendar
  import opened DateText
  import opened DueRules
  import opened Numbers
  import opened Proration
  import opened Sums
  import opened Tables
  import opened Text

  const MAX_FUTURE_JOINING_DAYS := 90

  predicate Full(room: Room) {
    room.occupiedBeds >= room.totalBeds
  }

  function AddBeds(rooms: Rooms, roomId: Id, delta: int): Rooms
    requires roomId in rooms
  {
    rooms[roomId := rooms[roomId].(occupiedBeds := rooms[roomId].occupiedBeds + delta)]
  }

  function SetTenancy(s: State, tenancyId: Id, tenancy: Tenancy): State {
    s.(tenancies := s.tenancies[tenancyId := tenancy])
  }

  // ----------------------------------------------------------------- onboarding

  /** An onboarding request; tenantId is the user found by phone number, if any. */
  datatype Onboarding = Onboarding(
    ownerId: Id, propertyId: Id, roomId: Id, tenantId: Option<Id>,
    joinDate: Time, moveOutDate: Option<Time>, rentAmount: real, securityDeposit: real, rentCycleDay: int)

  predicate ValidRequest(r: Onboarding) {
    && r.rentAmount > 0.0 && r.securityDeposit >= 0.0 && 1 <= r.rentCycleDay <= 28
  }

  predicate ValidDates(r: Onboarding, today: Time) {
    && r.joinDate <= today + MAX_FUTURE_JOINING_DAYS * MS_PER_DAY
    && (r.moveOutDate.Some? ==> r.joinDate < r.moveOutDate.value)
  }

  /** The tenant already lives in the property; pending tenancies are not looked at. */
  predicate Blocked(s: State, tenantId: Id, propertyId: Id) {
    exists t :: t in s.tenancies && s.tenancies[t].tenantId == tenantId && s.tenancies[t].propertyId == propertyId
                && (s.tenancies[t].status == Active || s.tenancies[t].status == NoticePeriod)
  }

  /** The pre-flight read of onboarding: Ok means that the transaction may be started. */
  function OnboardPreflight(s: State, r: Onboarding, today: Time): Result<()> {
    if !ValidRequest(r) || !ValidDates(r, today) then Err(BadRequest)
    else if r.propertyId !in s.owners then Err(BadRequest)
    else if s.owners[r.propertyId] != r.ownerId then Err(Forbidden)
    else if r.roomId !in s.rooms || s.rooms[r.roomId].propertyId != r.propertyId then Err(BadRequest)
    else if Full(s.rooms[r.roomId]) then Err(Conflict)
    else if r.tenantId.Some? && Blocked(s, r.tenantId.value, r.propertyId) then Err(Conflict)
    else Ok(())
  }

  function OnboardedTenancy(r: Onboarding, tenantId: Id, today: Time): Tenancy {
    Tenancy(r.roomId, tenantId, r.propertyId, if r.joinDate > today then Pending else Active,
            r.joinDate, None, None, Some(GetFirstCycleEnd(r.joinDate, r.rentCycleDay)))
  }

  /** The first rent and, unless it is zero, the deposit, both rounded up to whole rupees. */
  function FirstDues(r: Onboarding, tenancyId: Id, month: Month): seq<Due> {
    var rent := FirstRentCharge(r.joinDate, r.rentCycleDay, r.rentAmount);
    var deposit := Ceil(r.securityDeposit);
    [NewDue(tenancyId, r.propertyId, Rent, month, rent as real)]
    + (if deposit > 0 then [NewDue(tenancyId, r.propertyId, SecurityDeposit, month, deposit as real)] else [])
  }

  /** The new user (unless one exists) and tenancy, with the bed taken. */
  function OpenTenancy(s: State, r: Onboarding, today: Time): State
    requires r.roomId in s.rooms
  {
    var tenancyId := if r.tenantId.Some? then s.nextId else s.nextId + 1;
    var tenantId := if r.tenantId.Some? then r.tenantId.value else s.nextId;
    s.(nextId := tenancyId + 1,
       tenancies := s.tenancies[tenancyId := OnboardedTenancy(r, tenantId, today)],
       rooms := AddBeds(s.rooms, r.roomId, 1))
  }

  /** The onboarding transaction: re-check the locked room, then create the rows and take the bed. */
  function OnboardCommit(s: State, r: Onboarding, today: Time, month: Month): Reply<Id> {
    if r.roomId !in s.rooms then Fail(s, BadRequest)
    else if Full(s.rooms[r.roomId]) then Fail(s, Conflict)
    else
      var arrived := OpenTenancy(s, r, today);
      var tenancyId := arrived.nextId - 1;
      Reply(InsertDues(arrived, FirstDues(r, tenancyId, month)), Ok(tenancyId))
  }

  function CreateTenant(s: State, r: Onboarding, today: Time, month: Month): Reply<Id> {
    match OnboardPreflight(s, r, today)
    case Err(e) => Fail(s, e)
    case Ok(_) => OnboardCommit(s, r, today, month)
  }

  // ----------------------------------------------------------------- room shift

  /** What the pre-flight read of a shift remembers of the tenancy. */
  datatype ShiftPlan = ShiftPlan(tenancyId: Id, oldRoom: Id, oldProperty: Id, newRoom: Id, newProperty: Id)

  function ShiftPreflight(s: State, tenancyId: Id, newRoom: Id, newPropertyId: Option<Id>,
          ownerId: Id): Result<ShiftPlan> {
    if tenancyId !in s.tenancies then Err(NotFound)
    else
      var t := s.tenancies[tenancyId];
      if (t.status != Active && t.status != NoticePeriod) || t.deletedAt.Some? then Err(NotFound)
      else if !Owns(s, ownerId, t.propertyId) then Err(Forbidden)
      else
        var newProperty := if newPropertyId.Some? then newPropertyId.value else t.propertyId;
        if newRoom == t.roomId && newProperty == t.propertyId then Err(BadRequest)
        else if newRoom !in s.rooms then Err(NotFound)
        else if s.rooms[newRoom].propertyId != newProperty then Err(BadRequest)
        else if !Owns(s, ownerId, newProperty) then Err(Forbidden)
        else if Full(s.rooms[newRoom]) then Err(Conflict)
        else Ok(ShiftPlan(tenancyId, t.roomId, t.propertyId, newRoom, newProperty))
  }

  /** The dues of a tenancy that are still owed. */
  function OpenDues(dues: Dues, tenancyId: Id): (ids: set<Id>)
    ensures ids <= dues.Keys
  {
    set d | d in dues && dues[d].tenancyId == tenancyId && Open(dues[d].status)
  }

  function Reassign(dues: Dues, moved: set<Id>, propertyId: Id): Dues {
    map d | d in dues :: if d in moved then dues[d].(propertyId := propertyId) else dues[d]
  }

  /** The open dues of one month. */
  function InMonth(dues: Dues, ids: set<Id>, month: Month): Dues {
    map d | d in dues && d in ids && dues[d].month == month :: dues[d]
  }

  ghost function SumTotals(dues: Dues): Money { Total(map d | d in dues :: dues[d].total) }

  ghost function SumPaid(dues: Dues): Money { Total(map d | d in dues :: dues[d].paid) }

  ghost function SumBalances(dues: Dues): Money { Total(map d | d in dues :: dues[d].balance) }

  ghost function AmountsOf(dues: Dues): Metrics {
    Metrics(SumTotals(dues), SumPaid(dues), SumBalances(dues))
  }

  /** The amounts of the open dues, grouped by month. */
  ghost function Buckets(dues: Dues, ids: set<Id>): map<Month, Metrics>
    requires ids <= dues.Keys
  {
    var months := set d | d in ids :: dues[d].month;
    map m | m in months :: AmountsOf(InMonth(dues, ids, m))
  }

  function Plus(a: Metrics, b: Metrics): Metrics {
    Metrics(a.generated + b.generated, a.paid + b.paid, a.unpaid + b.unpaid)
  }

  function Minus(a: Metrics, b: Metrics): Metrics {
    Metrics(a.generated - b.generated, a.paid - b.paid, a.unpaid - b.unpaid)
  }

  /** Take one bucket out of the old property's row, if there is one, and add it to the new property's. */
  function MoveBucket(metrics: MetricsTable, oldProperty: Id, newProperty: Id, month: Month,
          amounts: Metrics): MetricsTable {
    var from, to := (oldProperty, month), (newProperty, month);
    var taken := if from in metrics then metrics[from := Minus(metrics[from], amounts)] else metrics;
    if to in taken then taken[to := Plus(taken[to], amounts)] else taken[to := amounts]
  }

  /** All buckets moved; a row of another month or property is left alone. */
  function MoveBuckets(metrics: MetricsTable, oldProperty: Id, newProperty: Id,
          buckets: map<Month, Metrics>): MetricsTable {
    map k | k in metrics.Keys + set m | m in buckets :: (newProperty, m) ::
      if k.1 in buckets && k.0 == newProperty
      then (if k in metrics then Plus(metrics[k], buckets[k.1]) else buckets[k.1])
      else if k.1 in buckets && k.0 == oldProperty then Minus(metrics[k], buckets[k.1])
      else metrics[k]
  }

  /** The bed freed in the old room and taken in the new one. */
  function MoveBed(rooms: Rooms, oldRoom: Id, newRoom: Id): Rooms
    requires oldRoom in rooms && newRoom in rooms
  {
    AddBeds(AddBeds(rooms, oldRoom, -1), newRoom, 1)
  }

  /** The rows that the plan names are there. */
  predicate PlanReadable(s: State, plan: ShiftPlan) {
    plan.oldRoom in s.rooms && plan.newRoom in s.rooms && plan.tenancyId in s.tenancies
  }

  function MoveInside(s: State, plan: ShiftPlan): State
    requires PlanReadable(s, plan)
  {
    SetTenancy(s, plan.tenancyId, s.tenancies[plan.tenancyId].(roomId := plan.newRoom)).(
      rooms := MoveBed(s.rooms, plan.oldRoom, plan.newRoom))
  }

  /** Into another property: the open dues and their share of the metrics move along. */
  ghost function MoveAcross(s: State, plan: ShiftPlan): State
    requires PlanReadable(s, plan)
  {
    var moved := OpenDues(s.dues, plan.tenancyId);
    SetTenancy(s, plan.tenancyId, s.tenancies[plan.tenancyId].(roomId := plan.newRoom,
        propertyId := plan.newProperty)).(
      rooms := MoveBed(s.rooms, plan.oldRoom, plan.newRoom),
      dues := Reassign(s.dues, moved, plan.newProperty),
      metrics := MoveBuckets(s.metrics, plan.oldProperty, plan.newProperty, Buckets(s.dues, moved)))
  }

  /** The shift transaction: re-check the locked target room, then move the tenancy, its bed and its dues. */
  ghost function ShiftCommit(s: State, plan: ShiftPlan): Reply<()> {
    if plan.oldRoom !in s.rooms || plan.newRoom !in s.rooms then Fail(s, NotFound)
    else if Full(s.rooms[plan.newRoom]) then Fail(s, Conflict)
    else if plan.tenancyId !in s.tenancies then Fail(s, NotFound)
    else if plan.newProperty == plan.oldProperty then Reply(MoveInside(s, plan), Ok(()))
    else Reply(MoveAcross(s, plan), Ok(()))
  }

  ghost function ShiftTenantRoom(s: State, tenancyId: Id, newRoom: Id, newPropertyId: Option<Id>,
          ownerId: Id): Reply<()> {
    match ShiftPreflight(s, tenancyId, newRoom, newPropertyId, ownerId)
    case Err(e) => Fail(s, e)
    case Ok(plan) => ShiftCommit(s, plan)
  }

  // ----------------------------------------------------------- exit and return

  datatype ExitPlan = ExitPlan(tenancyId: Id, roomId: Id)

  /** found is the live tenancy that the lookup by tenant and property returned. */
  function ExitPreflight(s: State, found: Option<Id>, tenantId: Id, propertyId: Id, ownerId: Id): Result<ExitPlan> {
    if found.None? || !IsTenancyOf(s, found.value, tenantId, propertyId) then Err(NotFound)
    else if !Owns(s, ownerId, propertyId) then Err(Forbidden)
    else if OpenDues(s.dues, found.value) != {} then Err(BadRequest)
    else Ok(ExitPlan(found.value, s.tenancies[found.value].roomId))
  }

  function ExitCommit(s: State, plan: ExitPlan, now: Time): (r: Reply<()>)
    ensures r.db == s.(tenancies := r.db.tenancies, rooms := r.db.rooms)
  {
    if plan.tenancyId !in s.tenancies || plan.roomId !in s.rooms then Fail(s, NotFound)
    else
      var t := s.tenancies[plan.tenancyId].(status := Exited, deletedAt := Some(now), leftAt := Some(now));
      Reply(SetTenancy(s, plan.tenancyId, t).(rooms := AddBeds(s.rooms, plan.roomId, -1)), Ok(()))
  }

  function DeleteTenant(s: State, found: Option<Id>, tenantId: Id, propertyId: Id, ownerId: Id,
          now: Time): (r: Reply<()>)
    ensures r.db == s.(tenancies := r.db.tenancies, rooms := r.db.rooms)
  {
    match ExitPreflight(s, found, tenantId, propertyId, ownerId)
    case Err(e) => Fail(s, e)
    case Ok(plan) => ExitCommit(s, plan, now)
  }

  /** Undo an exit. The room's capacity is not looked at. */
  function RevokeTenancyExit(s: State, tenancyId: Id, ownerId: Id): (r: Reply<()>)
    ensures r.db == s.(tenancies := r.db.tenancies, rooms := r.db.rooms)
  {
    if tenancyId !in s.tenancies || s.tenancies[tenancyId].status != Exited
       || !Owns(s, ownerId, s.tenancies[tenancyId].propertyId) then Fail(s, NotFound)
    else if s.tenancies[tenancyId].roomId !in s.rooms then Fail(s, NotFound)
    else
      var t := s.tenancies[tenancyId];
      Reply(SetTenancy(s, tenancyId, t.(status := Active, deletedAt := None, leftAt := None)).(
            rooms := AddBeds(s.rooms, t.roomId, 1)), Ok(()))
  }

  /** Re-activate an exited tenancy if its room has a free bed; leftAt keeps its value. */
  function ReActiveTenancy(s: State, propertyId: Id, ownerId: Id, tenancyId: Id): (r: Reply<()>)
    ensures r.db == s.(tenancies := r.db.tenancies, rooms := r.db.rooms)
  {
    if !Owns(s, ownerId, propertyId) then Fail(s, Unauthorized)
    else if tenancyId !in s.tenancies || s.tenancies[tenancyId].propertyId != propertyId then Fail(s, NotFound)
    else if s.tenancies[tenancyId].status != Exited then Fail(s, BadRequest)
    else if s.tenancies[tenancyId].roomId !in s.rooms then Fail(s, NotFound)
    else if Full(s.rooms[s.tenancies[tenancyId].roomId]) then Fail(s, BadRequest)
    else
      var t := s.tenancies[tenancyId];
      Reply(SetTenancy(s, tenancyId, t.(status := Active, deletedAt := None)).(
            rooms := AddBeds(s.rooms, t.roomId, 1)), Ok(()))
  }

  // -------------------------------------------------- notice, move-in, details

  /** A move-out date must not lie in the past and must follow the joining date. */
  predicate ValidMoveOut(moveOut: Time, joinedAt: Time, today: Time) {
    today <= moveOut && ToDateOnly(joinedAt) < moveOut
  }

  function PutOnNoticePeriod(s: State, tenancyId: Id, ownerId: Id, moveOut: Time, today: Time): (r: Reply<()>)
    ensures r.db == s.(tenancies := r.db.tenancies)
  {
    if tenancyId !in s.tenancies then Fail(s, NotFound)
    else
      var t := s.tenancies[tenancyId];
      if (t.status != Active && t.status != NoticePeriod) || t.deletedAt.Some? || !Owns(s, ownerId, t.propertyId)
      then Fail(s, NotFound)
      else if !ValidMoveOut(moveOut, t.joinedAt, today) then Fail(s, BadRequest)
      else Reply(SetTenancy(s, tenancyId, t.(status := NoticePeriod)), Ok(()))
  }

  function CancelNoticePeriod(s: State, tenancyId: Id, ownerId: Id): (r: Reply<()>)
    ensures r.db == s.(tenancies := r.db.tenancies)
  {
    if tenancyId !in s.tenancies then Fail(s, NotFound)
    else
      var t := s.tenancies[tenancyId];
      if t.status != NoticePeriod || t.deletedAt.Some? || !Owns(s, ownerId, t.propertyId) then Fail(s, NotFound)
      else Reply(SetTenancy(s, tenancyId, t.(status := Active)), Ok(()))
  }

  /** Approving a pending move-out request that was raised for tenancyId while in requestProperty. */
  function ApproveMoveOut(s: State, tenancyId: Id, requestProperty: Id, ownerId: Id, moveOut: Time,
          today: Time): (r: Reply<()>)
    ensures r.db == s.(tenancies := r.db.tenancies)
  {
    if tenancyId !in s.tenancies || !Owns(s, ownerId, requestProperty) then Fail(s, NotFound)
    else
      var t := s.tenancies[tenancyId];
      if t.deletedAt.Some? || t.status != Active then Fail(s, BadRequest)
      else if !ValidMoveOut(moveOut, t.joinedAt, today) then Fail(s, BadRequest)
      else Reply(SetTenancy(s, tenancyId, t.(status := NoticePeriod)), Ok(()))
  }

  function ConfirmMoveIn(s: State, tenancyId: Id, ownerId: Id, today: Time): (r: Reply<()>)
    ensures r.db == s.(tenancies := r.db.tenancies, movedIn := r.db.movedIn)
  {
    if tenancyId !in s.tenancies then Fail(s, NotFound)
    else
      var t := s.tenancies[tenancyId];
      if t.deletedAt.Some? || !Owns(s, ownerId, t.propertyId)
         || t.status == Exited || t.status == Evicted || t.status == NoticePeriod then Fail(s, NotFound)
      else if t.status != Pending && ToDateOnly(t.joinedAt) <= today then Fail(s, BadRequest)
      else if tenancyId in s.movedIn then Fail(s, BadRequest)
      else Reply(SetTenancy(s, tenancyId, t.(status := Active)).(movedIn := s.movedIn + {tenancyId}), Ok(()))
  }

  /** None: leave the move-out date; Some(None): clear it; Some(Some(d)): set it to d. */
  function UpdateTenancyDetails(s: State, tenancyId: Id, ownerId: Id, moveOut: Option<Option<Time>>,
          today: Time): (r: Reply<()>)
    ensures r.db == s.(tenancies := r.db.tenancies)
  {
    if tenancyId !in s.tenancies then Fail(s, NotFound)
    else
      var t := s.tenancies[tenancyId];
      if (t.status != Active && t.status != NoticePeriod) || t.deletedAt.Some? || !Owns(s, ownerId, t.propertyId)
      then Fail(s, NotFound)
      else
        if moveOut.None? then Reply(s, Ok(()))
        else if moveOut.value.None? then Reply(SetTenancy(s, tenancyId, t.(status := Active)), Ok(()))
        else if !ValidMoveOut(moveOut.value.value, t.joinedAt, today) then Fail(s, BadRequest)
        else Reply(SetTenancy(s, tenancyId, t.(status := NoticePeriod)), Ok(()))
  }
}
