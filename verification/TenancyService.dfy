/** The tenancy and tenant services, statement by statement; each transaction follows its pre-flight read. */
module TenancyService {
  import opened Admission
  import opened Calendar
  import DateText
  import opened DueRules
  import opened DueService
  import Flows
  import opened Invariants
  import opened Numbers
  import opened Proration
  import opened Queries
  import opened ShiftMoney
  import opened Sums
  import opened Tables
  import opened TenancyHistory
  import opened TenancyProofs
  import opened TenancyRules
  import opened Text

  method ChangeBeds(db: Database, roomId: Id, delta: int)
    requires roomId in db.rooms
    modifies db`rooms
    ensures db.Snapshot() == old(db.Snapshot()).(rooms := AddBeds(old(db.rooms), roomId, delta))
  {
    var room := db.rooms[roomId];
    db.rooms := db.rooms[roomId := room.(occupiedBeds := room.occupiedBeds + delta)];
  }

  method UpdateTenancy(db: Database, tenancyId: Id, tenancy: Tenancy)
    modifies db`tenancies
    ensures db.Snapshot() == SetTenancy(old(db.Snapshot()), tenancyId, tenancy)
  {
    db.tenancies := db.tenancies[tenancyId := tenancy];
  }

  // ------------------------------------------------------------------ onboarding

  /** The request fits the database: its transaction would go through now, for whatever month, and keep it sound. */
  ghost predicate WouldOnboard(s: State, r: Onboarding, today: Time) {
    forall month: Month :: OnboardCommit(s, r, today, month).result.Ok? && Inv(OnboardCommit(s, r, today, month).db)
  }

  lemma AdmittedWouldOnboard(s: State, r: Onboarding, today: Time)
    requires Inv(s) && OnboardPreflight(s, r, today).Ok?
    ensures WouldOnboard(s, r, today)
  {
    hide Inv, Blocked, OpenTenancy, InsertDues, FirstDues;
    forall month: Month
      ensures OnboardCommit(s, r, today, month).result.Ok? && Inv(OnboardCommit(s, r, today, month).db)
    {
      OnboardCommitKeepsInv(s, r, today, month);
    }
  }

  /**
   Admits a request exactly if the owner asks for a free bed in a room of their own property, with sound dates and
   amounts, for somebody who does not live there; in a sound database the transaction would then go through.
   */
  method RunPreFlightChecks(db: Database, r: Onboarding, today: Time) returns (checked: Result<()>)
    ensures checked == OnboardPreflight(db.Snapshot(), r, today)
    ensures checked.Ok? ==>
              && Owns(db.Snapshot(), r.ownerId, r.propertyId)
                  && r.joinDate <= today + MAX_FUTURE_JOINING_DAYS * MS_PER_DAY
              && r.roomId in db.rooms && db.rooms[r.roomId].propertyId == r.propertyId
              && db.rooms[r.roomId].occupiedBeds < db.rooms[r.roomId].totalBeds
              && forall t :: t in db.tenancies && db.tenancies[t].propertyId == r.propertyId
                             && (db.tenancies[t].status == Active || db.tenancies[t].status == NoticePeriod) ==>
                               Some(db.tenancies[t].tenantId) != r.tenantId
    ensures Inv(db.Snapshot()) && checked.Ok? ==> WouldOnboard(db.Snapshot(), r, today)
    ensures checked.Ok? <==> MayOnboard(db.Snapshot(), r, today)
  {
    hide Inv, WouldOnboard, MayOnboard;
    OnboardAdmittedExactly(db.Snapshot(), r, today);
    if Inv(db.Snapshot()) && OnboardPreflight(db.Snapshot(), r, today).Ok? {
      AdmittedWouldOnboard(db.Snapshot(), r, today);
    }
    if !ValidRequest(r) || !ValidDates(r, today) {
      return Err(BadRequest);
    }
    if r.propertyId !in db.owners {
      return Err(BadRequest);
    }
    if db.owners[r.propertyId] != r.ownerId {
      return Err(Forbidden);
    }
    if r.roomId !in db.rooms || db.rooms[r.roomId].propertyId != r.propertyId {
      return Err(BadRequest);
    }
    if Full(db.rooms[r.roomId]) {
      return Err(Conflict);
    }
    if r.tenantId.Some? && Blocked(db.Snapshot(), r.tenantId.value, r.propertyId) {
      return Err(Conflict);
    }
    return Ok(());
  }

  /** The user (unless one exists) and the tenancy; the bed is still free. */
  method CreateTenancy(db: Database, r: Onboarding, today: Time) returns (tenancyId: Id)
    requires r.roomId in db.rooms
    modifies db`nextId, db`tenancies
    ensures tenancyId == db.nextId - 1
    ensures db.Snapshot() == OpenTenancy(old(db.Snapshot()), r, today).(rooms := old(db.rooms))
  {
    hide OnboardedTenancy, AddBeds;
    var userId;
    if r.tenantId.Some? {
      userId := r.tenantId.value;
    } else {
      userId := db.nextId;
      db.nextId := userId + 1;
    }
    tenancyId := db.nextId;
    db.nextId := tenancyId + 1;
    db.tenancies := db.tenancies[tenancyId := OnboardedTenancy(r, userId, today)];
  }

  method CreateFirstDues(db: Database, r: Onboarding, tenancyId: Id, month: Month)
    modifies db`nextId, db`dues
    ensures db.Snapshot() == InsertDues(old(db.Snapshot()), FirstDues(r, tenancyId, month))
  {
    hide FirstRentCharge, Ceil, InsertDue;
    var rent, deposit := FirstRentCharge(r.joinDate, r.rentCycleDay, r.rentAmount), Ceil(r.securityDeposit);
    var rentDue := NewDue(tenancyId, r.propertyId, Rent, month, rent as real);
    var _ := CreateDue(db, rentDue);
    assert [rentDue][..0] == [];
    assert db.Snapshot() == InsertDues(old(db.Snapshot()), [rentDue]);
    if deposit > 0 {
      var depositDue := NewDue(tenancyId, r.propertyId, SecurityDeposit, month, deposit as real);
      assert [rentDue, depositDue][..1] == [rentDue];
      var _ := CreateDue(db, depositDue);
    } else {
      assert FirstDues(r, tenancyId, month) == [rentDue];
    }
  }

  lemma {:induction false} InsertDuesBesideRooms(s: State, dues: seq<Due>, rooms: Rooms)
    ensures InsertDues(s.(rooms := rooms), dues) == InsertDues(s, dues).(rooms := rooms)
    decreases |dues|
  {
    if dues != [] {
      InsertDuesBesideRooms(s, dues[..|dues| - 1], rooms);
    }
  }

  /** The bed taken, the row created and the money charged by a successful onboarding. */
  ghost predicate Onboarded(s: State, s': State, r: Onboarding, t: Id, today: Time, month: Month) {
    && t !in s.tenancies && t in s'.tenancies && s'.tenancies == s.tenancies[t := s'.tenancies[t]]
    && s'.tenancies[t].roomId == r.roomId && s'.tenancies[t].propertyId == r.propertyId
    && s'.tenancies[t].tenantId == (if r.tenantId.Some? then r.tenantId.value else s.nextId)
    && s'.tenancies[t].status == (if r.joinDate > today then Pending else Active)
    && s'.tenancies[t].joinedAt == r.joinDate && s'.tenancies[t].leftAt.None? && s'.tenancies[t].deletedAt.None?
    && s'.tenancies[t].nextBillingDate == Some(GetFirstCycleEnd(r.joinDate, r.rentCycleDay))
    && r.roomId in s.rooms && s.rooms[r.roomId].occupiedBeds < s.rooms[r.roomId].totalBeds
    && s'.rooms == AddBeds(s.rooms, r.roomId, 1)
    && Flows.ChargedOnce(s.dues, s'.dues, r, t, month)
  }

  lemma CommitOnboards(s: State, r: Onboarding, today: Time, month: Month)
    requires Inv(s) && ValidRequest(r) && OnboardCommit(s, r, today, month).result.Ok?
    requires s.rooms[r.roomId].propertyId == r.propertyId
    ensures var reply := OnboardCommit(s, r, today, month);
            Onboarded(s, reply.db, r, reply.result.value, today, month)
  {
    hide Inv, InsertDues, OpenTenancy, FirstDues, FirstRentCharge, GetFirstCycleEnd, Ceil, Total, Flows.Charges,
         AddBeds, Flows.ChargedOnce;
    Flows.CommitCharges(s, r, today, month);
    ArrivedTenancy(s, r, today);
  }

  lemma CreateTenantOnboards(s: State, r: Onboarding, today: Time, month: Month)
    requires Inv(s) && TenancyRules.CreateTenant(s, r, today, month).result.Ok?
    ensures var reply := TenancyRules.CreateTenant(s, r, today, month);
            Onboarded(s, reply.db, r, reply.result.value, today, month)
  {
    hide Inv, TenancyRules.CreateTenant, OnboardCommit, Onboarded;
    Flows.AdmittedRequest(s, r, today, month);
    CommitOnboards(s, r, today, month);
  }

  method RunTransaction(db: Database, r: Onboarding, today: Time, month: Month) returns (created: Result<Id>)
    modifies db`nextId, db`tenancies, db`dues, db`rooms
    ensures Reply(db.Snapshot(), created) == OnboardCommit(old(db.Snapshot()), r, today, month)
    ensures created.Err? ==> db.Snapshot() == old(db.Snapshot())
    ensures created.Ok? <==>
              r.roomId in old(db.rooms) && old(db.rooms)[r.roomId].occupiedBeds < old(db.rooms)[r.roomId].totalBeds
    ensures Inv(old(db.Snapshot())) && ValidRequest(r) && r.roomId in old(db.rooms)
            && old(db.rooms)[r.roomId].propertyId == r.propertyId ==>
              && Inv(db.Snapshot())
              && (created.Ok? ==> Onboarded(old(db.Snapshot()), db.Snapshot(), r, created.value, today, month))
  {
    hide OpenTenancy, InsertDues, FirstDues, AddBeds, Inv, Onboarded, ValidRequest;
    ghost var s := db.Snapshot();
    if Inv(s) && ValidRequest(r) && r.roomId in s.rooms && s.rooms[r.roomId].propertyId == r.propertyId {
      OnboardCommitKeepsInv(s, r, today, month);
      if OnboardCommit(s, r, today, month).result.Ok? {
        CommitOnboards(s, r, today, month);
      }
    }
    if r.roomId !in db.rooms {
      return Err(BadRequest);
    }
    if Full(db.rooms[r.roomId]) {
      return Err(Conflict);
    }
    ghost var arrived := OpenTenancy(db.Snapshot(), r, today);
    ArrivalRooms(db.Snapshot(), r, today);
    var tenancyId := CreateTenancy(db, r, today);
    ghost var dues := FirstDues(r, tenancyId, month);
    InsertDuesBesideRooms(arrived, dues, old(db.rooms));
    CreateFirstDues(db, r, tenancyId, month);
    ChangeBeds(db, r.roomId, 1);
    return Ok(tenancyId);
  }

  lemma RefusedOnboarding(s: State, r: Onboarding, today: Time, month: Month)
    requires TenancyRules.CreateTenant(s, r, today, month).result.Err?
    ensures TenancyRules.CreateTenant(s, r, today, month).db == s
  {
    hide OpenTenancy, InsertDues, FirstDues, OnboardPreflight;
  }

  lemma AdmittedGoesThrough(s: State, r: Onboarding, today: Time, month: Month)
    ensures TenancyRules.CreateTenant(s, r, today, month).result.Ok? <==> OnboardPreflight(s, r, today).Ok?
  {
    hide OpenTenancy, InsertDues, FirstDues, Blocked;
  }

  /** Onboarding: nothing happens, or one bed is taken and exactly first rent and deposit are charged. */
  method CreateTenant(db: Database, r: Onboarding, today: Time, month: Month) returns (created: Result<Id>)
    modifies db`nextId, db`tenancies, db`dues, db`rooms
    ensures Reply(db.Snapshot(), created) == TenancyRules.CreateTenant(old(db.Snapshot()), r, today, month)
    ensures created.Err? ==> db.Snapshot() == old(db.Snapshot())
    ensures Inv(old(db.Snapshot())) ==>
              && Inv(db.Snapshot())
              && (created.Ok? ==> Onboarded(old(db.Snapshot()), db.Snapshot(), r, created.value, today, month))
    ensures created.Ok? <==> MayOnboard(old(db.Snapshot()), r, today)
  {
    hide OnboardPreflight, OnboardCommit, Inv, Onboarded, MayOnboard;
    OnboardAdmittedExactly(db.Snapshot(), r, today);
    AdmittedGoesThrough(db.Snapshot(), r, today, month);
    ghost var s := db.Snapshot();
    if Inv(s) {
      CreateTenantKeepsInv(s, r, today, month);
      if TenancyRules.CreateTenant(s, r, today, month).result.Ok? {
        CreateTenantOnboards(s, r, today, month);
      }
    }
    if TenancyRules.CreateTenant(s, r, today, month).result.Err? {
      RefusedOnboarding(s, r, today, month);
    }
    var checked := RunPreFlightChecks(db, r, today);
    if checked.Err? {
      return Err(checked.error);
    }
    created := RunTransaction(db, r, today, month);
  }

  // ------------------------------------------------------------------ room shift

  /** The plan describes the tenancy and two different rooms, and its transaction would go through now. */
  ghost predicate WouldShift(s: State, plan: ShiftPlan) {
    && PlanFits(s, plan) && plan.oldRoom in s.rooms && plan.oldRoom != plan.newRoom
    && ShiftCommit(s, plan).result.Ok? && Inv(ShiftCommit(s, plan).db)
  }

  lemma AdmittedWouldShift(s: State, tenancyId: Id, newRoom: Id, newPropertyId: Option<Id>, ownerId: Id)
    requires Inv(s) && ShiftPreflight(s, tenancyId, newRoom, newPropertyId, ownerId).Ok?
    ensures WouldShift(s, ShiftPreflight(s, tenancyId, newRoom, newPropertyId, ownerId).value)
  {
    hide Inv, MoveInside, MoveAcross;
    RowOk(s, tenancyId);
    ShiftCommitKeepsInv(s, ShiftPreflight(s, tenancyId, newRoom, newPropertyId, ownerId).value);
  }

  /** Admits a shift between properties of the owner; in a sound database its transaction would then go through. */
  method ShiftPreFlight(db: Database, tenancyId: Id, newRoom: Id, newPropertyId: Option<Id>, ownerId: Id)
    returns (checked: Result<ShiftPlan>)
    ensures checked == ShiftPreflight(db.Snapshot(), tenancyId, newRoom, newPropertyId, ownerId)
    ensures checked.Ok? ==>
              && checked.value.tenancyId == tenancyId && checked.value.newRoom == newRoom
              && Owns(db.Snapshot(), ownerId, checked.value.oldProperty)
              && Owns(db.Snapshot(), ownerId, checked.value.newProperty)
    ensures Inv(db.Snapshot()) && checked.Ok? ==> WouldShift(db.Snapshot(), checked.value)
    ensures checked.Ok? <==> MayShift(db.Snapshot(), tenancyId, newRoom, newPropertyId, ownerId)
  {
    hide Owns, Inv, WouldShift, MayShift;
    ShiftAdmittedExactly(db.Snapshot(), tenancyId, newRoom, newPropertyId, ownerId);
    var s := db.Snapshot();
    if Inv(s) && ShiftPreflight(s, tenancyId, newRoom, newPropertyId, ownerId).Ok? {
      AdmittedWouldShift(s, tenancyId, newRoom, newPropertyId, ownerId);
    }
    if tenancyId !in db.tenancies {
      return Err(NotFound);
    }
    var tenancy := db.tenancies[tenancyId];
    if (tenancy.status != Active && tenancy.status != NoticePeriod) || tenancy.deletedAt.Some? {
      return Err(NotFound);
    }
    if !Owns(s, ownerId, tenancy.propertyId) {
      return Err(Forbidden);
    }
    var newProperty := if newPropertyId.Some? then newPropertyId.value else tenancy.propertyId;
    if newRoom == tenancy.roomId && newProperty == tenancy.propertyId {
      return Err(BadRequest);
    }
    if newRoom !in db.rooms {
      return Err(NotFound);
    }
    if db.rooms[newRoom].propertyId != newProperty {
      return Err(BadRequest);
    }
    if !Owns(s, ownerId, newProperty) {
      return Err(Forbidden);
    }
    if Full(db.rooms[newRoom]) {
      return Err(Conflict);
    }
    return Ok(ShiftPlan(tenancyId, tenancy.roomId, tenancy.propertyId, newRoom, newProperty));
  }

  /** Groups the open dues by month: the accumulating loop computes the sums of each month. */
  method GroupByMonth(dues: Dues, pendingDues: seq<Id>, ghost ids: set<Id>) returns (buckets: map<Month, Metrics>)
    requires ids <= dues.Keys && Lists(pendingDues, ids)
    ensures buckets == Buckets(dues, ids)
  {
    hide Buckets;
    buckets := map[];
    ghost var seen: set<Id> := {};
    NoBuckets(dues);
    for i := 0 to |pendingDues|
      invariant seen == set j | 0 <= j < i :: pendingDues[j]
      invariant seen <= ids
      invariant buckets == Buckets(dues, seen)
    {
      var d := pendingDues[i];
      assert d in ids && d !in seen;
      BucketsAdd(dues, seen, d);
      var key := dues[d].month;
      var b := if key in buckets then buckets[key] else Metrics(0.0, 0.0, 0.0);
      b := Metrics(b.generated + dues[d].total, b.paid + dues[d].paid, b.unpaid + dues[d].balance);
      buckets := buckets[key := b];
      seen := seen + {d};
    }
    assert seen == ids;
  }

  /** Subtracts each bucket from the old property's row, if there is one, and upserts it into the new property's. */
  method MoveMetrics(db: Database, oldProperty: Id, newProperty: Id, buckets: map<Month, Metrics>)
    requires oldProperty != newProperty
    modifies db`metrics
    ensures db.Snapshot() == old(db.Snapshot()).(metrics := MoveBuckets(old(db.metrics), oldProperty, newProperty,
        buckets))
  {
    hide MoveBuckets, MoveBucket;
    var keys := FindMany(buckets.Keys);
    ghost var seen: set<Month> := {};
    NothingMoved(db.metrics, oldProperty, newProperty, buckets);
    for i := 0 to |keys|
      invariant seen == set j | 0 <= j < i :: keys[j]
      invariant db.Snapshot() == old(db.Snapshot()).(
                  metrics := MoveBuckets(old(db.metrics), oldProperty, newProperty, Restrict(buckets, seen)))
    {
      assert keys[i] in buckets && keys[i] !in seen;
      MoveBucketsAdd(old(db.metrics), oldProperty, newProperty, buckets, seen, keys[i]);
      MoveOneBucket(db, oldProperty, newProperty, keys[i], buckets[keys[i]]);
      seen := seen + {keys[i]};
    }
    assert seen == buckets.Keys;
    assert Restrict(buckets, seen) == buckets;
  }

  method MoveOneBucket(db: Database, oldProperty: Id, newProperty: Id, month: Month, amounts: Metrics)
    modifies db`metrics
    ensures db.Snapshot() == old(db.Snapshot()).(
              metrics := MoveBucket(old(db.metrics), oldProperty, newProperty, month, amounts))
  {
    if (oldProperty, month) in db.metrics {
      var row := db.metrics[(oldProperty, month)];
      db.metrics := db.metrics[(oldProperty, month) := Minus(row, amounts)];
    }
    if (newProperty, month) in db.metrics {
      var row := db.metrics[(newProperty, month)];
      db.metrics := db.metrics[(newProperty, month) := Plus(row, amounts)];
    } else {
      db.metrics := db.metrics[(newProperty, month) := amounts];
    }
  }

  /**
   The tenancy has moved to a free bed in another room, and with it, into another property, what it owes and the metrics
   of what it owes; everything else has stayed.
   */
  ghost predicate Shifted(s: State, s': State, t: Id, newRoom: Id) {
    && t in s.tenancies && newRoom in s.rooms && s.tenancies[t].roomId in s.rooms
    && var row, q := s.tenancies[t], s.rooms[newRoom].propertyId;
    && row.roomId != newRoom && s.rooms[newRoom].occupiedBeds < s.rooms[newRoom].totalBeds
    && s'.tenancies == s.tenancies[t := row.(roomId := newRoom, propertyId := q)]
    && BedsMoved(s.rooms, s'.rooms, row.roomId, newRoom)
    && OwedFollows(s.dues, s'.dues, t, q) && ShiftFrame(s, s')
    && (if q == row.propertyId then s'.metrics == s.metrics
        else MetricsMoved(s.metrics, s'.metrics, s.dues, t, row.propertyId, q))
  }

  /** The dues that the tenancy still owes are in the property now. */
  ghost predicate OwedFollows(before: Dues, after: Dues, t: Id, q: Id) {
    && after.Keys == before.Keys
    && forall d :: d in before ==>
         after[d] == (if before[d].tenancyId == t && (before[d].status == Unpaid || before[d].status == Partial
                                                      || before[d].status == Overdue)
                      then before[d].(propertyId := q) else before[d])
  }

  lemma OwedStays(dues: Dues, t: Id, q: Id)
    requires forall d :: d in OpenDues(dues, t) ==> dues[d].propertyId == q
    ensures OwedFollows(dues, dues, t, q)
  {
    forall d | d in dues && dues[d].tenancyId == t
               && (dues[d].status == Unpaid || dues[d].status == Partial || dues[d].status == Overdue)
      ensures dues[d].propertyId == q
    {
      assert d in OpenDues(dues, t);
    }
  }

  lemma OwedMoves(dues: Dues, t: Id, q: Id)
    ensures OwedFollows(dues, Reassign(dues, OpenDues(dues, t), q), t, q)
  {
  }

  /** One bed less is taken in the old room and one more in the new one. */
  ghost predicate BedsMoved(before: Rooms, after: Rooms, from: Id, to: Id) {
    && from in before && to in before && after.Keys == before.Keys
    && (forall r :: r in before && r != from && r != to ==> after[r] == before[r])
    && after[from] == before[from].(occupiedBeds := before[from].occupiedBeds - 1)
    && after[to] == before[to].(occupiedBeds := before[to].occupiedBeds + 1)
  }

  lemma BedsAreMoved(rooms: Rooms, from: Id, to: Id)
    requires from in rooms && to in rooms && from != to
    ensures BedsMoved(rooms, MoveBed(rooms, from, to), from, to)
  {
  }

  lemma CommitShifts(s: State, plan: ShiftPlan)
    requires Inv(s) && PlanFits(s, plan) && plan.oldRoom != plan.newRoom && ShiftCommit(s, plan).result.Ok?
    ensures Shifted(s, ShiftCommit(s, plan).db, plan.tenancyId, plan.newRoom)
  {
    hide Inv, ShiftCommit, MoveInside, MoveAcross, Shifted;
    if plan.newProperty == plan.oldProperty {
      ShiftedInside(s, plan);
      InsideShifts(s, plan);
    } else {
      ShiftedAcross(s, plan);
      AcrossShifts(s, plan);
    }
  }

  lemma InsideShifts(s: State, plan: ShiftPlan)
    requires Inv(s) && PlanFits(s, plan) && PlanReadable(s, plan) && plan.oldRoom != plan.newRoom
    requires plan.newProperty == plan.oldProperty && !Full(s.rooms[plan.newRoom])
    ensures Shifted(s, MoveInside(s, plan), plan.tenancyId, plan.newRoom)
  {
    hide Inv, MoveInside, MoveBed, OpenDues, OwedFollows, BedsMoved;
    OpenDuesAtHome(s, plan.tenancyId);
    BedsAreMoved(s.rooms, plan.oldRoom, plan.newRoom);
    OwedStays(s.dues, plan.tenancyId, plan.oldProperty);
    InsideFrame(s, plan);
    InsideTenancies(s, plan);
    InsideMetrics(s, plan);
  }

  lemma AcrossShifts(s: State, plan: ShiftPlan)
    requires Inv(s) && PlanFits(s, plan) && PlanReadable(s, plan) && plan.oldRoom != plan.newRoom
    requires plan.newProperty != plan.oldProperty && !Full(s.rooms[plan.newRoom])
    ensures Shifted(s, MoveAcross(s, plan), plan.tenancyId, plan.newRoom)
  {
    hide Inv, MoveAcross, MoveBed, OpenDues, OwedFollows, BedsMoved, MetricsMoved, MoveBuckets, Buckets, Reassign;
    BedsAreMoved(s.rooms, plan.oldRoom, plan.newRoom);
    OwedMoves(s.dues, plan.tenancyId, plan.newProperty);
    AcrossFrame(s, plan);
    AcrossTenancies(s, plan);
    AcrossMetrics(s, plan);
    BucketsMoveTheMoney(s.metrics, s.dues, plan.tenancyId, plan.oldProperty, plan.newProperty);
  }

  lemma InsideMetrics(s: State, plan: ShiftPlan)
    requires PlanReadable(s, plan)
    ensures MoveInside(s, plan).metrics == s.metrics
  {
    hide MoveBed;
  }

  lemma AcrossMetrics(s: State, plan: ShiftPlan)
    requires PlanReadable(s, plan)
    ensures MoveAcross(s, plan).metrics
         == MoveBuckets(s.metrics, plan.oldProperty, plan.newProperty,
                        Buckets(s.dues, OpenDues(s.dues, plan.tenancyId)))
  {
    hide MoveBed, MoveBuckets, Buckets, Reassign, OpenDues;
  }

  lemma ShiftShifts(s: State, tenancyId: Id, newRoom: Id, newPropertyId: Option<Id>, ownerId: Id)
    requires Inv(s) && TenancyRules.ShiftTenantRoom(s, tenancyId, newRoom, newPropertyId, ownerId).result.Ok?
    ensures var s' := TenancyRules.ShiftTenantRoom(s, tenancyId, newRoom, newPropertyId, ownerId).db;
            Shifted(s, s', tenancyId, newRoom)
  {
    hide Inv, ShiftPreflight, ShiftCommit, Shifted;
    ShiftFits(s, tenancyId, newRoom, newPropertyId, ownerId);
    CommitShifts(s, ShiftPreflight(s, tenancyId, newRoom, newPropertyId, ownerId).value);
  }

  method ShiftTransaction(db: Database, plan: ShiftPlan) returns (r: Result<()>)
    modifies db`tenancies, db`rooms, db`dues, db`metrics
    ensures Reply(db.Snapshot(), r) == ShiftCommit(old(db.Snapshot()), plan)
    ensures r.Err? ==> db.Snapshot() == old(db.Snapshot())
    ensures r.Ok? <==>
              && PlanReadable(old(db.Snapshot()), plan)
              && old(db.rooms)[plan.newRoom].occupiedBeds < old(db.rooms)[plan.newRoom].totalBeds
    ensures Inv(old(db.Snapshot())) && PlanFits(old(db.Snapshot()), plan) && plan.oldRoom != plan.newRoom ==>
              && Inv(db.Snapshot())
              && (r.Ok? ==> Shifted(old(db.Snapshot()), db.Snapshot(), plan.tenancyId, plan.newRoom))
  {
    hide MoveInside, MoveAcross, Inv, Shifted, PlanFits;
    ghost var s := db.Snapshot();
    if Inv(s) && PlanFits(s, plan) && plan.oldRoom != plan.newRoom {
      ShiftCommitKeepsInv(s, plan);
      if ShiftCommit(s, plan).result.Ok? {
        CommitShifts(s, plan);
      }
    }
    if plan.oldRoom !in db.rooms || plan.newRoom !in db.rooms {
      return Err(NotFound);
    }
    if Full(db.rooms[plan.newRoom]) {
      return Err(Conflict);
    }
    if plan.tenancyId !in db.tenancies {
      return Err(NotFound);
    }
    if plan.newProperty == plan.oldProperty {
      ShiftInside(db, plan);
    } else {
      ShiftAcross(db, plan);
    }
    return Ok(());
  }

  method ShiftInside(db: Database, plan: ShiftPlan)
    requires PlanReadable(db.Snapshot(), plan)
    modifies db`tenancies, db`rooms
    ensures db.Snapshot() == MoveInside(old(db.Snapshot()), plan)
  {
    hide AddBeds;
    UpdateTenancy(db, plan.tenancyId, db.tenancies[plan.tenancyId].(roomId := plan.newRoom));
    ChangeBeds(db, plan.oldRoom, -1);
    RoomStays(old(db.rooms), plan.oldRoom, -1, plan.newRoom);
    ChangeBeds(db, plan.newRoom, 1);
  }

  method ShiftAcross(db: Database, plan: ShiftPlan)
    requires PlanReadable(db.Snapshot(), plan) && plan.newProperty != plan.oldProperty
    modifies db`tenancies, db`rooms, db`dues, db`metrics
    ensures db.Snapshot() == MoveAcross(old(db.Snapshot()), plan)
  {
    hide AddBeds, OpenDues, Buckets, MoveBuckets, Reassign;
    var moved := OpenDues(db.dues, plan.tenancyId);
    var pendingDues := FindMany(moved);
    var buckets := GroupByMonth(db.dues, pendingDues, moved);
    var row := db.tenancies[plan.tenancyId].(roomId := plan.newRoom, propertyId := plan.newProperty);
    UpdateTenancy(db, plan.tenancyId, row);
    ChangeBeds(db, plan.oldRoom, -1);
    RoomStays(old(db.rooms), plan.oldRoom, -1, plan.newRoom);
    ChangeBeds(db, plan.newRoom, 1);
    db.dues := Reassign(db.dues, moved, plan.newProperty);
    MoveMetrics(db, plan.oldProperty, plan.newProperty, buckets);
  }

  lemma RoomStays(rooms: Rooms, roomId: Id, delta: int, other: Id)
    requires roomId in rooms && other in rooms
    ensures other in AddBeds(rooms, roomId, delta)
  {
  }

  lemma RefusedShift(s: State, tenancyId: Id, newRoom: Id, newPropertyId: Option<Id>, ownerId: Id)
    requires TenancyRules.ShiftTenantRoom(s, tenancyId, newRoom, newPropertyId, ownerId).result.Err?
    ensures TenancyRules.ShiftTenantRoom(s, tenancyId, newRoom, newPropertyId, ownerId).db == s
  {
    hide ShiftPreflight, ShiftCommit;
    if ShiftPreflight(s, tenancyId, newRoom, newPropertyId, ownerId).Ok? {
      ShiftRefused(s, ShiftPreflight(s, tenancyId, newRoom, newPropertyId, ownerId).value);
    }
  }

  /** A shift: nothing happens, or one tenancy moves with its bed and its open dues. */
  method ShiftTenantRoom(db: Database, tenancyId: Id, newRoom: Id, newPropertyId: Option<Id>,
          ownerId: Id) returns (r: Result<()>)
    modifies db`tenancies, db`rooms, db`dues, db`metrics
    ensures Reply(db.Snapshot(), r)
            == TenancyRules.ShiftTenantRoom(old(db.Snapshot()), tenancyId, newRoom, newPropertyId, ownerId)
    ensures r.Err? ==> db.Snapshot() == old(db.Snapshot())
    ensures Inv(old(db.Snapshot())) ==>
              && Inv(db.Snapshot()) && LegalStep(old(db.Snapshot()), db.Snapshot())
              && (r.Ok? <==> MayShift(old(db.Snapshot()), tenancyId, newRoom, newPropertyId, ownerId))
              && (r.Ok? ==> Shifted(old(db.Snapshot()), db.Snapshot(), tenancyId, newRoom))
  {
    hide ShiftPreflight, ShiftCommit, Inv, LegalStep, Shifted, MayShift;
    ghost var s := db.Snapshot();
    ShiftAdmittedExactly(s, tenancyId, newRoom, newPropertyId, ownerId);
    if Inv(s) {
      if ShiftPreflight(s, tenancyId, newRoom, newPropertyId, ownerId).Ok? {
        AdmittedWouldShift(s, tenancyId, newRoom, newPropertyId, ownerId);
      }
      ShiftTenantRoomKeepsInv(s, tenancyId, newRoom, newPropertyId, ownerId);
      ShiftHistory(s, tenancyId, newRoom, newPropertyId, ownerId);
      if TenancyRules.ShiftTenantRoom(s, tenancyId, newRoom, newPropertyId, ownerId).result.Ok? {
        ShiftShifts(s, tenancyId, newRoom, newPropertyId, ownerId);
      }
    }
    if TenancyRules.ShiftTenantRoom(s, tenancyId, newRoom, newPropertyId, ownerId).result.Err? {
      RefusedShift(s, tenancyId, newRoom, newPropertyId, ownerId);
    }
    var checked := ShiftPreFlight(db, tenancyId, newRoom, newPropertyId, ownerId);
    if checked.Err? {
      return Err(checked.error);
    }
    r := ShiftTransaction(db, checked.value);
  }

  // -------------------------------------------------------------- exit and return

  /** Nothing else but this row has changed. */
  ghost predicate ChangedRow(before: TenancyTable, after: TenancyTable, t: Id, row: Tenancy) {
    t in before && after == before[t := row]
  }

  /** So many more beds of the room are taken, and no others. */
  ghost predicate BedChanged(before: Rooms, after: Rooms, r: Id, delta: int) {
    && r in before && after.Keys == before.Keys
    && (forall q :: q in before && q != r ==> after[q] == before[q])
    && after[r] == before[r].(occupiedBeds := before[r].occupiedBeds + delta)
  }

  /** The tenancy as the exit leaves it. */
  function Left(t: Tenancy, now: Time): Tenancy {
    t.(status := Exited, deletedAt := Some(now), leftAt := Some(now))
  }

  lemma ExitIs(s: State, found: Option<Id>, tenantId: Id, propertyId: Id, ownerId: Id, now: Time)
    ensures var r := TenancyRules.DeleteTenant(s, found, tenantId, propertyId, ownerId, now);
            && (r.result.Err? ==> r.db == s) && LegalStep(s, r.db)
            && (r.result.Ok? ==>
                  && found.Some? && found.value in s.tenancies
                  && ChangedRow(s.tenancies, r.db.tenancies, found.value, Left(s.tenancies[found.value], now))
                  && BedChanged(s.rooms, r.db.rooms, s.tenancies[found.value].roomId, -1))
            && (Inv(s) ==> Inv(r.db))
            && (r.result.Ok? <==> found.Some? && MayExit(s, found.value, tenantId, propertyId, ownerId))
  {
    hide Owns, OpenDues, Inv, LegalStep, MayExit;
    ExitAdmittedExactly(s, found, tenantId, propertyId, ownerId, now);
    ExitHistory(s, found, tenantId, propertyId, ownerId, now);
    if Inv(s) {
      DeleteTenantKeepsInv(s, found, tenantId, propertyId, ownerId, now);
    }
  }

  method DeleteTenant(db: Database, tenantId: Id, propertyId: Id, ownerId: Id, now: Time)
    returns (r: Result<()>, ghost found: Option<Id>)
    modifies db`tenancies, db`rooms
    ensures Reply(db.Snapshot(), r) == TenancyRules.DeleteTenant(old(db.Snapshot()), found, tenantId, propertyId,
        ownerId, now)
    ensures r.Err? ==> db.Snapshot() == old(db.Snapshot())
    ensures r.Ok? ==>
              && found.Some? && found.value in old(db.tenancies)
              && ChangedRow(old(db.tenancies), db.tenancies, found.value, Left(old(db.tenancies)[found.value], now))
              && BedChanged(old(db.rooms), db.rooms, old(db.tenancies)[found.value].roomId, -1)
    ensures r.Ok? <==> found.Some? && MayExit(old(db.Snapshot()), found.value, tenantId, propertyId, ownerId)
    ensures found.None? <==> forall t :: !IsLiveOf(old(db.Snapshot()), t, tenantId, propertyId)
    ensures Inv(old(db.Snapshot())) ==> Inv(db.Snapshot())
    ensures LegalStep(old(db.Snapshot()), db.Snapshot())
  {
    hide Owns, OpenDues, AddBeds, Billable, Inv, LegalStep, ChangedRow, BedChanged, Left, MayExit, IsLiveOf;
    LiveTenanciesExactly(db.Snapshot(), tenantId, propertyId);
    var s := db.Snapshot();
    forall t {
      ExitIs(s, t, tenantId, propertyId, ownerId, now);
    }
    var tenancyId := FindTenancy(db, tenantId, propertyId);
    found := tenancyId;
    if tenancyId.None? {
      return Err(NotFound), found;
    }
    if !Owns(s, ownerId, propertyId) {
      return Err(Forbidden), found;
    }
    var pendingDues := FindMany(OpenDues(db.dues, tenancyId.value));
    if |pendingDues| > 0 {
      return Err(BadRequest), found;
    }
    var tenancy := db.tenancies[tenancyId.value];
    if tenancy.roomId !in db.rooms {
      return Err(NotFound), found;
    }
    UpdateTenancy(db, tenancyId.value, tenancy.(status := Exited, deletedAt := Some(now), leftAt := Some(now)));
    ChangeBeds(db, tenancy.roomId, -1);
    return Ok(()), found;
  }

  /** Brings back an exited tenancy of the owner, as if it had never left; whether a bed is free is not asked. */
  method RevokeTenancyExit(db: Database, tenancyId: Id, ownerId: Id) returns (r: Result<()>)
    modifies db`tenancies, db`rooms
    ensures Reply(db.Snapshot(), r) == TenancyRules.RevokeTenancyExit(old(db.Snapshot()), tenancyId, ownerId)
    ensures r.Err? ==> db.Snapshot() == old(db.Snapshot())
    ensures r.Ok? ==>
              && tenancyId in old(db.tenancies)
              && ChangedRow(old(db.tenancies), db.tenancies, tenancyId,
                            old(db.tenancies)[tenancyId].(status := Active, deletedAt := None, leftAt := None))
              && old(db.tenancies)[tenancyId].status == Exited
              && Owns(old(db.Snapshot()), ownerId, old(db.tenancies)[tenancyId].propertyId)
              && BedChanged(old(db.rooms), db.rooms, old(db.tenancies)[tenancyId].roomId, 1)
    ensures Inv(old(db.Snapshot())) ==> Inv(db.Snapshot())
    ensures LegalStep(old(db.Snapshot()), db.Snapshot())
    ensures r.Ok? <==> MayRevoke(old(db.Snapshot()), tenancyId, ownerId)
  {
    hide Owns, Inv, LegalStep, MayRevoke;
    RevokeAdmittedExactly(db.Snapshot(), tenancyId, ownerId);
    ghost var s := db.Snapshot();
    if Inv(s) {
      RevokeKeepsInv(s, tenancyId, ownerId);
    }
    ReturnHistory(s, 0, ownerId, tenancyId);
    if tenancyId !in db.tenancies || db.tenancies[tenancyId].status != Exited
       || !Owns(db.Snapshot(), ownerId, db.tenancies[tenancyId].propertyId) {
      return Err(NotFound);
    }
    var tenancy := db.tenancies[tenancyId];
    if tenancy.roomId !in db.rooms {
      return Err(NotFound);
    }
    UpdateTenancy(db, tenancyId, tenancy.(status := Active, deletedAt := None, leftAt := None));
    ChangeBeds(db, tenancy.roomId, 1);
    return Ok(());
  }

  /** Brings back an exited tenancy of the owner if its room has a free bed; the day it left stays on record. */
  method ReActiveTenancy(db: Database, propertyId: Id, ownerId: Id, tenancyId: Id) returns (r: Result<()>)
    modifies db`tenancies, db`rooms
    ensures Reply(db.Snapshot(), r) == TenancyRules.ReActiveTenancy(old(db.Snapshot()), propertyId, ownerId, tenancyId)
    ensures r.Err? ==> db.Snapshot() == old(db.Snapshot())
    ensures r.Ok? ==>
              && tenancyId in old(db.tenancies)
              && ChangedRow(old(db.tenancies), db.tenancies, tenancyId,
                            old(db.tenancies)[tenancyId].(status := Active, deletedAt := None))
              && old(db.tenancies)[tenancyId].status == Exited
              && Owns(old(db.Snapshot()), ownerId, old(db.tenancies)[tenancyId].propertyId)
              && BedChanged(old(db.rooms), db.rooms, old(db.tenancies)[tenancyId].roomId, 1)
              && !Full(old(db.rooms)[old(db.tenancies)[tenancyId].roomId])
    ensures Inv(old(db.Snapshot())) ==> Inv(db.Snapshot())
    ensures LegalStep(old(db.Snapshot()), db.Snapshot())
    ensures r.Ok? <==> MayReactivate(old(db.Snapshot()), propertyId, ownerId, tenancyId)
  {
    hide Owns, Inv, LegalStep, MayReactivate;
    ReactivateAdmittedExactly(db.Snapshot(), propertyId, ownerId, tenancyId);
    ghost var s := db.Snapshot();
    if Inv(s) {
      ReActivateKeepsInv(s, propertyId, ownerId, tenancyId);
    }
    ReturnHistory(s, propertyId, ownerId, tenancyId);
    if !Owns(db.Snapshot(), ownerId, propertyId) {
      return Err(Unauthorized);
    }
    if tenancyId !in db.tenancies || db.tenancies[tenancyId].propertyId != propertyId {
      return Err(NotFound);
    }
    var tenancy := db.tenancies[tenancyId];
    if tenancy.status != Exited {
      return Err(BadRequest);
    }
    if tenancy.roomId !in db.rooms {
      return Err(NotFound);
    }
    if Full(db.rooms[tenancy.roomId]) {
      return Err(BadRequest);
    }
    UpdateTenancy(db, tenancyId, tenancy.(status := Active, deletedAt := None));
    ChangeBeds(db, tenancy.roomId, 1);
    return Ok(());
  }

  // --------------------------------------------------- notice, move-in, details

  /** Gives notice for an active tenancy of the owner, with a move-out date from today on and after joining. */
  method PutOnNoticePeriod(db: Database, tenancyId: Id, ownerId: Id, moveOut: Time, today: Time) returns (r: Result<()>)
    modifies db`tenancies
    ensures Reply(db.Snapshot(), r) == TenancyRules.PutOnNoticePeriod(old(db.Snapshot()), tenancyId, ownerId, moveOut,
        today)
    ensures r.Err? ==> db.tenancies == old(db.tenancies)
    ensures r.Ok? ==>
              && tenancyId in old(db.tenancies)
              && ChangedRow(old(db.tenancies), db.tenancies, tenancyId,
                  old(db.tenancies)[tenancyId].(status := NoticePeriod))
              && (old(db.tenancies)[tenancyId].status == Active || old(db.tenancies)[tenancyId].status == NoticePeriod)
              && Owns(old(db.Snapshot()), ownerId, old(db.tenancies)[tenancyId].propertyId)
              && today <= moveOut && DateText.ToDateOnly(old(db.tenancies)[tenancyId].joinedAt) < moveOut
    ensures Inv(old(db.Snapshot())) ==> Inv(db.Snapshot())
    ensures LegalStep(old(db.Snapshot()), db.Snapshot())
    ensures r.Ok? <==> MayGiveNotice(old(db.Snapshot()), tenancyId, ownerId, moveOut, today)
  {
    hide Owns, DateText.ToDateOnly, Inv, LegalStep, MayGiveNotice;
    NoticeAdmittedExactly(db.Snapshot(), tenancyId, ownerId, moveOut, today);
    ghost var s := db.Snapshot();
    if Inv(s) {
      StatusChangesKeepInv(s, tenancyId, ownerId, 0, moveOut, today);
    }
    NoticeHistory(s, tenancyId, ownerId, moveOut, today);
    if tenancyId !in db.tenancies {
      return Err(NotFound);
    }
    var tenancy := db.tenancies[tenancyId];
    if (tenancy.status != Active && tenancy.status != NoticePeriod) || tenancy.deletedAt.Some?
       || !Owns(db.Snapshot(), ownerId, tenancy.propertyId) {
      return Err(NotFound);
    }
    if !ValidMoveOut(moveOut, tenancy.joinedAt, today) {
      return Err(BadRequest);
    }
    UpdateTenancy(db, tenancyId, tenancy.(status := NoticePeriod));
    return Ok(());
  }

  /** Takes a tenancy of the owner off notice. */
  method CancelNoticePeriod(db: Database, tenancyId: Id, ownerId: Id) returns (r: Result<()>)
    modifies db`tenancies
    ensures Reply(db.Snapshot(), r) == TenancyRules.CancelNoticePeriod(old(db.Snapshot()), tenancyId, ownerId)
    ensures r.Err? ==> db.tenancies == old(db.tenancies)
    ensures r.Ok? ==>
              && tenancyId in old(db.tenancies)
              && ChangedRow(old(db.tenancies), db.tenancies, tenancyId, old(db.tenancies)[tenancyId].(status := Active))
              && old(db.tenancies)[tenancyId].status == NoticePeriod
              && Owns(old(db.Snapshot()), ownerId, old(db.tenancies)[tenancyId].propertyId)
    ensures Inv(old(db.Snapshot())) ==> Inv(db.Snapshot())
    ensures LegalStep(old(db.Snapshot()), db.Snapshot())
    ensures r.Ok? <==> MayCancelNotice(old(db.Snapshot()), tenancyId, ownerId)
  {
    hide Owns, Inv, LegalStep, MayCancelNotice;
    CancelAdmittedExactly(db.Snapshot(), tenancyId, ownerId);
    ghost var s := db.Snapshot();
    if Inv(s) {
      StatusChangesKeepInv(s, tenancyId, ownerId, 0, 0, 0);
    }
    CancelHistory(s, tenancyId, ownerId);
    if tenancyId !in db.tenancies {
      return Err(NotFound);
    }
    var tenancy := db.tenancies[tenancyId];
    if tenancy.status != NoticePeriod || tenancy.deletedAt.Some? || !Owns(db.Snapshot(), ownerId, tenancy.propertyId) {
      return Err(NotFound);
    }
    UpdateTenancy(db, tenancyId, tenancy.(status := Active));
    return Ok(());
  }

  /** Gives notice for an active tenancy on its own request, raised in a property of the owner. */
  method ApproveMoveOutRequest(db: Database, tenancyId: Id, requestProperty: Id, ownerId: Id, moveOut: Time,
          today: Time)
    returns (r: Result<()>)
    modifies db`tenancies
    ensures Reply(db.Snapshot(), r)
            == ApproveMoveOut(old(db.Snapshot()), tenancyId, requestProperty, ownerId, moveOut, today)
    ensures r.Err? ==> db.tenancies == old(db.tenancies)
    ensures r.Ok? ==>
              && tenancyId in old(db.tenancies)
              && ChangedRow(old(db.tenancies), db.tenancies, tenancyId,
                  old(db.tenancies)[tenancyId].(status := NoticePeriod))
              && old(db.tenancies)[tenancyId].status == Active && Owns(old(db.Snapshot()), ownerId, requestProperty)
              && today <= moveOut && DateText.ToDateOnly(old(db.tenancies)[tenancyId].joinedAt) < moveOut
    ensures Inv(old(db.Snapshot())) ==> Inv(db.Snapshot())
    ensures LegalStep(old(db.Snapshot()), db.Snapshot())
    ensures r.Ok? <==>
              MayApproveMoveOut(old(db.Snapshot()), tenancyId, requestProperty, ownerId, moveOut, today)
  {
    hide Owns, DateText.ToDateOnly, Inv, LegalStep, MayApproveMoveOut;
    ApprovalAdmittedExactly(db.Snapshot(), tenancyId, requestProperty, ownerId, moveOut, today);
    ghost var s := db.Snapshot();
    if Inv(s) {
      StatusChangesKeepInv(s, tenancyId, ownerId, requestProperty, moveOut, today);
    }
    ApprovalHistory(s, tenancyId, ownerId, requestProperty, moveOut, today);
    if tenancyId !in db.tenancies || !Owns(db.Snapshot(), ownerId, requestProperty) {
      return Err(NotFound);
    }
    var tenancy := db.tenancies[tenancyId];
    if tenancy.deletedAt.Some? || tenancy.status != Active {
      return Err(BadRequest);
    }
    if !ValidMoveOut(moveOut, tenancy.joinedAt, today) {
      return Err(BadRequest);
    }
    UpdateTenancy(db, tenancyId, tenancy.(status := NoticePeriod));
    return Ok(());
  }

  /** Confirms the move-in of a tenancy of the owner; each tenancy moves in at most once. */
  method ConfirmMoveIn(db: Database, tenancyId: Id, ownerId: Id, today: Time) returns (r: Result<()>)
    modifies db`tenancies, db`movedIn
    ensures Reply(db.Snapshot(), r) == TenancyRules.ConfirmMoveIn(old(db.Snapshot()), tenancyId, ownerId, today)
    ensures r.Err? ==> db.tenancies == old(db.tenancies) && db.movedIn == old(db.movedIn)
    ensures r.Ok? ==>
              && tenancyId in old(db.tenancies)
              && ChangedRow(old(db.tenancies), db.tenancies, tenancyId, old(db.tenancies)[tenancyId].(status := Active))
              && (old(db.tenancies)[tenancyId].status == Active || old(db.tenancies)[tenancyId].status == Pending)
              && Owns(old(db.Snapshot()), ownerId, old(db.tenancies)[tenancyId].propertyId)
              && tenancyId !in old(db.movedIn) && db.movedIn == old(db.movedIn) + {tenancyId}
    ensures Inv(old(db.Snapshot())) ==> Inv(db.Snapshot())
    ensures LegalStep(old(db.Snapshot()), db.Snapshot())
    ensures r.Ok? <==> MayConfirmMoveIn(old(db.Snapshot()), tenancyId, ownerId, today)
  {
    hide Owns, DateText.ToDateOnly, Inv, LegalStep, MayConfirmMoveIn;
    MoveInAdmittedExactly(db.Snapshot(), tenancyId, ownerId, today);
    ghost var s := db.Snapshot();
    if Inv(s) {
      StatusChangesKeepInv(s, tenancyId, ownerId, 0, 0, today);
    }
    MoveInHistory(s, tenancyId, ownerId, today);
    if tenancyId !in db.tenancies {
      return Err(NotFound);
    }
    var tenancy := db.tenancies[tenancyId];
    if tenancy.deletedAt.Some? || !Owns(db.Snapshot(), ownerId, tenancy.propertyId)
       || tenancy.status == Exited || tenancy.status == Evicted || tenancy.status == NoticePeriod {
      return Err(NotFound);
    }
    if tenancy.status != Pending && DateText.ToDateOnly(tenancy.joinedAt) <= today {
      return Err(BadRequest);
    }
    if tenancyId in db.movedIn {
      return Err(BadRequest);
    }
    UpdateTenancy(db, tenancyId, tenancy.(status := Active));
    db.movedIn := db.movedIn + {tenancyId};
    return Ok(());
  }

  /** A move-out date gives notice, clearing it takes off notice; without one the tenancy stays as it is. */
  method UpdateTenancyDetails(db: Database, tenancyId: Id, ownerId: Id, moveOut: Option<Option<Time>>, today: Time)
    returns (r: Result<()>)
    modifies db`tenancies
    ensures Reply(db.Snapshot(), r) == TenancyRules.UpdateTenancyDetails(old(db.Snapshot()), tenancyId, ownerId,
        moveOut, today)
    ensures r.Err? ==> db.tenancies == old(db.tenancies)
    ensures r.Ok? ==>
              && tenancyId in old(db.tenancies)
              && (old(db.tenancies)[tenancyId].status == Active || old(db.tenancies)[tenancyId].status == NoticePeriod)
              && Owns(old(db.Snapshot()), ownerId, old(db.tenancies)[tenancyId].propertyId)
              && var row := old(db.tenancies)[tenancyId];
              && (moveOut == None ==> db.tenancies == old(db.tenancies))
              && (moveOut == Some(None) ==> ChangedRow(old(db.tenancies), db.tenancies, tenancyId,
                  row.(status := Active)))
              && (moveOut.Some? && moveOut.value.Some? ==>
                    ChangedRow(old(db.tenancies), db.tenancies, tenancyId, row.(status := NoticePeriod))
                    && today <= moveOut.value.value && DateText.ToDateOnly(row.joinedAt) < moveOut.value.value)
    ensures Inv(old(db.Snapshot())) ==> Inv(db.Snapshot())
    ensures LegalStep(old(db.Snapshot()), db.Snapshot())
    ensures r.Ok? <==> MayUpdateDetails(old(db.Snapshot()), tenancyId, ownerId, moveOut, today)
  {
    hide Owns, DateText.ToDateOnly, Inv, LegalStep, MayUpdateDetails;
    DetailsAdmittedExactly(db.Snapshot(), tenancyId, ownerId, moveOut, today);
    ghost var s := db.Snapshot();
    if Inv(s) {
      UpdateDetailsKeepsInv(s, tenancyId, ownerId, moveOut, today);
    }
    DetailsHistory(s, tenancyId, ownerId, moveOut, today);
    if tenancyId !in db.tenancies {
      return Err(NotFound);
    }
    var tenancy := db.tenancies[tenancyId];
    if (tenancy.status != Active && tenancy.status != NoticePeriod) || tenancy.deletedAt.Some?
       || !Owns(db.Snapshot(), ownerId, tenancy.propertyId) {
      return Err(NotFound);
    }
    match moveOut
    case None =>
      return Ok(());
    case Some(None) =>
      UpdateTenancy(db, tenancyId, tenancy.(status := Active));
      return Ok(());
    case Some(Some(date)) =>
      if !ValidMoveOut(date, tenancy.joinedAt, today) {
        return Err(BadRequest);
      }
      UpdateTenancy(db, tenancyId, tenancy.(status := NoticePeriod));
      return Ok(());
  }
}
