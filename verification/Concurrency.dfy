/**
 Concurrent requests. Onboarding, room shifts and exits read the database without a lock and commit
 later in a transaction that locks the room rows; any number of them may be in flight, and any other
 service may change any other table in between.
 */
module Concurrency {
  import opened Calendar
  import opened DueRules
  import opened Invariants
  import opened Tables
  import opened TenancyProofs
  import opened TenancyRules
  import opened Text

  /** What a request asks for. */
  datatype Intent =
    | OnboardIntent(onboarding: Onboarding, today: Time, month: Month)
    | ShiftIntent(tenancyId: Id, newRoom: Id, newProperty: Option<Id>, ownerId: Id)
    | ExitIntent(found: Option<Id>, tenantId: Id, propertyId: Id, exitOwner: Id, now: Time)

  /** What a request remembers of its pre-flight read. */
  datatype InFlight =
    | Onboards(onboarding: Onboarding, today: Time, month: Month)
    | Shifts(shift: ShiftPlan)
    | Exits(exit: ExitPlan, now: Time)

  datatype World = World(db: State, inFlight: map<int, InFlight>)

  datatype Event =
    | Begin(request: int, intent: Intent)
    | Commit(request: int)
    | Background(after: State)

  /** The unlocked read: a request that passes its checks goes in flight. */
  function Preflight(s: State, intent: Intent): Result<InFlight> {
    match intent
    case OnboardIntent(r, today, month) =>
      (match OnboardPreflight(s, r, today) case Ok(_) => Ok(Onboards(r, today, month)) case Err(e) => Err(e))
    case ShiftIntent(t, room, property, owner) =>
      (match ShiftPreflight(s, t, room, property, owner) case Ok(plan) => Ok(Shifts(plan)) case Err(e) => Err(e))
    case ExitIntent(found, tenant, property, owner, now) =>
      (match ExitPreflight(s, found, tenant, property, owner)
       case Ok(plan) => Ok(Exits(plan, now))
       case Err(e) => Err(e))
  }

  /** The locked transaction, run on the database as it is by then. */
  ghost function CommitTo(s: State, request: InFlight): State {
    match request
    case Onboards(r, today, month) => OnboardCommit(s, r, today, month).db
    case Shifts(plan) => ShiftCommit(s, plan).db
    case Exits(plan, now) => ExitCommit(s, plan, now).db
  }

  /** Other services may do anything to the other tables, but they do not write room rows. */
  ghost predicate Enabled(w: World, e: Event) {
    match e
    case Begin(id, _) => id !in w.inFlight
    case Commit(id) => id in w.inFlight
    case Background(after) => after.rooms == w.db.rooms
  }

  ghost function Next(w: World, e: Event): World
    requires Enabled(w, e)
  {
    match e
    case Begin(id, intent) =>
      (match Preflight(w.db, intent)
       case Ok(request) => w.(inFlight := w.inFlight[id := request])
       case Err(_) => w)
    case Commit(id) => World(CommitTo(w.db, w.inFlight[id]), w.inFlight - {id})
    case Background(after) => w.(db := after)
  }

  ghost predicate IsInterleaving(worlds: seq<World>, events: seq<Event>) {
    && |worlds| == |events| + 1
    && forall i :: 0 <= i < |events| ==> Enabled(worlds[i], events[i]) && worlds[i + 1] == Next(worlds[i], events[i])
  }

  ghost predicate WithinCapacity(rooms: Rooms) {
    forall r :: r in rooms ==> rooms[r].occupiedBeds <= rooms[r].totalBeds
  }

  // -------------------------------------------------------------------- capacity

  lemma OnboardCommitCapacity(s: State, r: Onboarding, today: Time, month: Month)
    requires WithinCapacity(s.rooms)
    ensures WithinCapacity(OnboardCommit(s, r, today, month).db.rooms)
  {
    hide InsertDues, FirstDues, OnboardedTenancy;
  }

  lemma ShiftCommitCapacity(s: State, plan: ShiftPlan)
    requires WithinCapacity(s.rooms)
    ensures WithinCapacity(ShiftCommit(s, plan).db.rooms)
  {
    hide ShiftCommit;
    if ShiftCommit(s, plan).result.Ok? {
      ShiftedRooms(s, plan);
    } else {
      ShiftRefused(s, plan);
    }
  }

  lemma ExitCommitCapacity(s: State, plan: ExitPlan, now: Time)
    requires WithinCapacity(s.rooms)
    ensures WithinCapacity(ExitCommit(s, plan, now).db.rooms)
  {
  }

  lemma EventKeepsCapacity(w: World, e: Event)
    requires Enabled(w, e) && WithinCapacity(w.db.rooms)
    ensures WithinCapacity(Next(w, e).db.rooms)
  {
    hide Preflight, OnboardCommit, ShiftCommit, ExitCommit, WithinCapacity;
    if e.Commit? {
      match w.inFlight[e.request]
      case Onboards(r, today, month) => OnboardCommitCapacity(w.db, r, today, month);
      case Shifts(plan) => ShiftCommitCapacity(w.db, plan);
      case Exits(plan, now) => ExitCommitCapacity(w.db, plan, now);
    }
  }

  /**
   However stale the pre-flight reads are and however the commits interleave, the re-check under the row lock
   keeps every room within its capacity.
   */
  lemma {:induction false} CapacityUnderConcurrency(worlds: seq<World>, events: seq<Event>)
    requires IsInterleaving(worlds, events) && WithinCapacity(worlds[0].db.rooms)
    ensures forall i :: 0 <= i < |worlds| ==> WithinCapacity(worlds[i].db.rooms)
    decreases |events|
  {
    hide Enabled, Next, WithinCapacity;
    if events != [] {
      var n := |events|;
      CapacityUnderConcurrency(worlds[..n], events[..n - 1]);
      assert worlds[..n][n - 1] == worlds[n - 1];
      EventKeepsCapacity(worlds[n - 1], events[n - 1]);
      forall i | 0 <= i < |worlds|
        ensures WithinCapacity(worlds[i].db.rooms)
      {
        if i < n {
          assert worlds[..n][i] == worlds[i];
        }
      }
    }
  }

  // --------------------------------------------------------- relation to atomic steps

  /** A request that begins and commits with nothing in between is the atomic operation. */
  lemma UndisturbedIsAtomic(w: World, id: int, intent: Intent)
    requires id !in w.inFlight
    ensures var begun := Next(w, Begin(id, intent));
            var done := if id in begun.inFlight then Next(begun, Commit(id)) else begun;
            && done.inFlight == w.inFlight
            && done.db == match intent
                          case OnboardIntent(r, today, month) => CreateTenant(w.db, r, today, month).db
                          case ShiftIntent(t, room, property, owner) =>
                            ShiftTenantRoom(w.db, t, room, property, owner).db
                          case ExitIntent(found, tenant, property, owner, now) =>
                            DeleteTenant(w.db, found, tenant, property, owner, now).db
  {
    hide OnboardCommit, ShiftCommit, ExitCommit, OnboardPreflight, ShiftPreflight, ExitPreflight;
    if Preflight(w.db, intent).Ok? {
      assert w.inFlight[id := Preflight(w.db, intent).value] - {id} == w.inFlight;
    }
  }

  // ----------------------------------------------------------------- stale commits

  /** The exit transaction may still follow its plan: the tenancy lives where the plan says. */
  predicate StillThere(s: State, tenancyId: Id, roomId: Id) {
    tenancyId in s.tenancies && Live(s.tenancies[tenancyId].status) && s.tenancies[tenancyId].roomId == roomId
  }

  /**
   However old its plan, an exit keeps the occupancy exact if and only if the tenancy still lives in the planned room,
   and it keeps the whole invariant if and only if, besides, no due has become open.
   */
  lemma StaleExit(s: State, plan: ExitPlan, now: Time)
    requires Inv(s) && plan.tenancyId in s.tenancies && plan.roomId in s.rooms
    ensures var s' := ExitCommit(s, plan, now).db;
            && (OccupancyOk(s'.rooms, s'.tenancies) <==> StillThere(s, plan.tenancyId, plan.roomId))
            && (Inv(s') <==> StillThere(s, plan.tenancyId, plan.roomId) && OpenDues(s.dues, plan.tenancyId) == {})
  {
    hide Inv, OccupancyOk, OpenDues, Beds, ExitCommit;
    var s', t := ExitCommit(s, plan, now).db, plan.tenancyId;
    ExitRows(s, plan, now);
    RowOk(s, t);
    var row := s'.tenancies[t];
    InvParts(s);
    if StillThere(s, t, plan.roomId) {
      OccupancyStep(s.rooms, s'.rooms, s.tenancies, t, row);
      if OpenDues(s.dues, t) == {} {
        TenancyChangeKeeps(s, t, row, s'.rooms, s.movedIn);
      } else {
        DebtOfExited(s', t);
      }
    } else {
      BedsAfter(s.tenancies, t, row, plan.roomId);
      CountedBeds(s, plan.roomId);
      Miscounted(s'.rooms, s'.tenancies, plan.roomId);
    }
    if Inv(s') {
      InvParts(s');
    }
  }

  lemma ExitRows(s: State, plan: ExitPlan, now: Time)
    requires plan.tenancyId in s.tenancies && plan.roomId in s.rooms
    ensures var t := s.tenancies[plan.tenancyId].(status := Exited, deletedAt := Some(now), leftAt := Some(now));
            ExitCommit(s, plan, now)
            == Reply(SetTenancy(s, plan.tenancyId, t).(rooms := AddBeds(s.rooms, plan.roomId, -1)), Ok(()))
  {
    hide AddBeds, SetTenancy;
  }

  lemma InvParts(s: State)
    requires Inv(s)
    ensures OccupancyOk(s.rooms, s.tenancies) && DebtOk(s.tenancies, s.dues)
  {
    hide OccupancyOk, DebtOk;
  }

  lemma DebtOfExited(s: State, t: Id)
    requires t in s.tenancies && s.tenancies[t].status == Exited && OpenDues(s.dues, t) != {}
    ensures !DebtOk(s.tenancies, s.dues)
  {
    if DebtOk(s.tenancies, s.dues) {
      NothingOpen(s.dues, t);
      assert false;
    }
  }

  lemma NothingOpen(dues: Dues, t: Id)
    requires forall d :: d in dues ==> !(dues[d].tenancyId == t && Open(dues[d].status))
    ensures OpenDues(dues, t) == {}
  {
    forall d
      ensures d !in OpenDues(dues, t)
    {
    }
  }

  lemma Miscounted(rooms: Rooms, tenancies: TenancyTable, r: Id)
    requires r in rooms && rooms[r].occupiedBeds != |Beds(tenancies, r)|
    ensures !OccupancyOk(rooms, tenancies)
  {
    hide Beds;
  }

  lemma CountedBeds(s: State, roomId: Id)
    requires Inv(s) && roomId in s.rooms
    ensures s.rooms[roomId].occupiedBeds == |Beds(s.tenancies, roomId)|
  {
  }

  /** The plan names two rooms and the properties that they are in; rooms never move, so no plan loses this. */
  ghost predicate NamesRooms(rooms: Rooms, plan: ShiftPlan) {
    && plan.oldRoom in rooms && plan.newRoom in rooms && plan.oldRoom != plan.newRoom
    && rooms[plan.oldRoom].propertyId == plan.oldProperty && rooms[plan.newRoom].propertyId == plan.newProperty
  }

  /**
   However old its plan, a shift that finds a free bed keeps the occupancy exact, and the whole invariant, if and only
   if the tenancy still lives in the old room.
   */
  lemma StaleShift(s: State, plan: ShiftPlan)
    requires Inv(s) && NamesRooms(s.rooms, plan) && ShiftCommit(s, plan).result.Ok?
    ensures var s' := ShiftCommit(s, plan).db;
            && (OccupancyOk(s'.rooms, s'.tenancies) <==> StillThere(s, plan.tenancyId, plan.oldRoom))
            && (Inv(s') <==> StillThere(s, plan.tenancyId, plan.oldRoom))
  {
    hide Inv, OccupancyOk, Beds, ShiftCommit, MoveBed;
    var s', t := ShiftCommit(s, plan).db, plan.tenancyId;
    ShiftedRooms(s, plan);
    ShiftedRow(s, plan);
    RowOk(s, t);
    if StillThere(s, t, plan.oldRoom) {
      ShiftCommitKeepsInv(s, plan);
      InvParts(s');
    } else {
      BedsAfter(s.tenancies, t, s'.tenancies[t], plan.oldRoom);
      CountedBeds(s, plan.oldRoom);
      OneBedLess(s.rooms, plan.oldRoom, plan.newRoom);
      Miscounted(s'.rooms, s'.tenancies, plan.oldRoom);
      if Inv(s') {
        InvParts(s');
      }
    }
  }

  /**
   A failing interleaving: a shift has passed its pre-flight when the tenant's exit goes through. The shift still
   commits, although the tenancy has exited, and the old room counts one tenancy too few.
   */
  lemma ShiftAfterExitLosesABed(s: State, t: Id, newRoom: Id, newProperty: Option<Id>, ownerId: Id, tenantId: Id,
          propertyId: Id, now: Time)
    requires Inv(s) && ShiftPreflight(s, t, newRoom, newProperty, ownerId).Ok?
    requires DeleteTenant(s, Some(t), tenantId, propertyId, ownerId, now).result.Ok?
    ensures var plan := ShiftPreflight(s, t, newRoom, newProperty, ownerId).value;
            var exited := DeleteTenant(s, Some(t), tenantId, propertyId, ownerId, now).db;
            var shifted := ShiftCommit(exited, plan);
            && shifted.result.Ok? && plan.oldRoom in shifted.db.rooms
            && shifted.db.rooms[plan.oldRoom].occupiedBeds == |Beds(shifted.db.tenancies, plan.oldRoom)| - 1
            && !OccupancyOk(shifted.db.rooms, shifted.db.tenancies)
  {
    hide Inv, OccupancyOk, Beds, ShiftCommit, MoveBed, DeleteTenant, ShiftPreflight;
    var plan := ShiftPreflight(s, t, newRoom, newProperty, ownerId).value;
    var exited := DeleteTenant(s, Some(t), tenantId, propertyId, ownerId, now).db;
    PreflightDescribes(s, ShiftIntent(t, newRoom, newProperty, ownerId));
    PlanHasRoom(s, t, newRoom, newProperty, ownerId);
    DeleteTenantKeepsInv(s, Some(t), tenantId, propertyId, ownerId, now);
    ExitedRow(s, t, tenantId, propertyId, ownerId, now, plan);
    ShiftCommitGoesThrough(exited, plan);
    var s' := ShiftCommit(exited, plan).db;
    ShiftedRooms(exited, plan);
    ShiftedRow(exited, plan);
    StaleShift(exited, plan);
    ShiftedStaysExited(exited, plan);
    BedsAfter(exited.tenancies, t, s'.tenancies[t], plan.oldRoom);
    CountedBeds(exited, plan.oldRoom);
    OneBedLess(exited.rooms, plan.oldRoom, plan.newRoom);
  }

  lemma PlanHasRoom(s: State, t: Id, newRoom: Id, newProperty: Option<Id>, ownerId: Id)
    requires ShiftPreflight(s, t, newRoom, newProperty, ownerId).Ok?
    ensures var plan := ShiftPreflight(s, t, newRoom, newProperty, ownerId).value;
            && t in s.tenancies && plan.tenancyId == t && plan.oldRoom == s.tenancies[t].roomId
            && plan.newRoom in s.rooms && !Full(s.rooms[plan.newRoom])
  {
  }

  lemma ExitedRow(s: State, t: Id, tenantId: Id, propertyId: Id, ownerId: Id, now: Time, plan: ShiftPlan)
    requires DeleteTenant(s, Some(t), tenantId, propertyId, ownerId, now).result.Ok?
    requires t in s.tenancies && plan.oldRoom == s.tenancies[t].roomId && NamesRooms(s.rooms, plan)
    ensures var exited := DeleteTenant(s, Some(t), tenantId, propertyId, ownerId, now).db;
            && t in exited.tenancies && exited.tenancies[t].status == Exited
            && NamesRooms(exited.rooms, plan) && exited.rooms[plan.newRoom] == s.rooms[plan.newRoom]
  {
    hide OpenDues;
  }

  lemma ShiftCommitGoesThrough(s: State, plan: ShiftPlan)
    requires PlanReadable(s, plan) && !Full(s.rooms[plan.newRoom])
    ensures ShiftCommit(s, plan).result.Ok?
  {
    hide MoveInside, MoveAcross;
  }

  lemma ShiftedStaysExited(s: State, plan: ShiftPlan)
    requires ShiftCommit(s, plan).result.Ok?
    ensures plan.tenancyId in s.tenancies && plan.tenancyId in ShiftCommit(s, plan).db.tenancies
    ensures ShiftCommit(s, plan).db.tenancies[plan.tenancyId].status == s.tenancies[plan.tenancyId].status
  {
    hide ShiftCommit, MoveBed, Buckets, MoveBuckets, Reassign, OpenDues;
    if plan.newProperty == plan.oldProperty {
      ShiftedInside(s, plan);
    } else {
      ShiftedAcross(s, plan);
    }
  }

  lemma OneBedLess(rooms: Rooms, a: Id, b: Id)
    requires a in rooms && b in rooms && a != b
    ensures a in MoveBed(rooms, a, b) && MoveBed(rooms, a, b)[a].occupiedBeds == rooms[a].occupiedBeds - 1
  {
  }

  lemma ShiftedRow(s: State, plan: ShiftPlan)
    requires ShiftCommit(s, plan).result.Ok?
    ensures var s' := ShiftCommit(s, plan).db;
            && plan.tenancyId in s'.tenancies && s'.tenancies[plan.tenancyId].roomId == plan.newRoom
            && s'.tenancies == s.tenancies[plan.tenancyId := s'.tenancies[plan.tenancyId]]
  {
    hide MoveBed, Buckets, MoveBuckets, Reassign, OpenDues;
    hide ShiftCommit;
    if plan.newProperty == plan.oldProperty {
      ShiftedInside(s, plan);
    } else {
      ShiftedAcross(s, plan);
    }
  }

  // ------------------------------------------------------ the invariant under concurrency

  /** What the plan of a request in flight says about the rooms. */
  ghost predicate Describes(rooms: Rooms, request: InFlight) {
    match request
    case Onboards(r, _, _) => ValidRequest(r) && r.roomId in rooms && rooms[r.roomId].propertyId == r.propertyId
    case Shifts(plan) => NamesRooms(rooms, plan)
    case Exits(plan, _) => plan.roomId in rooms
  }

  /** What a caller would have to check again inside the transaction. */
  ghost predicate StillFits(s: State, request: InFlight) {
    match request
    case Onboards(_, _, _) => true
    case Shifts(plan) => ShiftCommit(s, plan).result.Ok? ==> StillThere(s, plan.tenancyId, plan.oldRoom)
    case Exits(plan, _) =>
      plan.tenancyId in s.tenancies ==>
        StillThere(s, plan.tenancyId, plan.roomId) && OpenDues(s.dues, plan.tenancyId) == {}
  }

  /** A commit keeps the invariant exactly when its plan still fits, or it is refused. */
  lemma CommitKeepsInvExactly(s: State, request: InFlight)
    requires Inv(s) && Describes(s.rooms, request)
    ensures Inv(CommitTo(s, request)) <==> StillFits(s, request)
  {
    hide Inv, OnboardCommit, ShiftCommit, ExitCommit, OpenDues, NamesRooms, StillThere;
    match request
    case Onboards(r, today, month) => OnboardCommitKeepsInv(s, r, today, month);
    case Shifts(plan) =>
      if ShiftCommit(s, plan).result.Ok? {
        StaleShift(s, plan);
      } else {
        ShiftRefused(s, plan);
      }
    case Exits(plan, now) =>
      if plan.tenancyId in s.tenancies {
        StaleExit(s, plan, now);
      } else {
        ExitRefused(s, plan, now);
      }
  }

  lemma ExitRefused(s: State, plan: ExitPlan, now: Time)
    requires plan.tenancyId !in s.tenancies
    ensures ExitCommit(s, plan, now).db == s
  {
  }

  lemma PreflightDescribes(s: State, intent: Intent)
    requires Inv(s) && Preflight(s, intent).Ok?
    ensures Describes(s.rooms, Preflight(s, intent).value)
  {
    hide Inv, OpenDues, Blocked, Owns;
    match intent
    case OnboardIntent(_, _, _) =>
    case ShiftIntent(t, _, _, _) =>
      if t in s.tenancies {
        RowOk(s, t);
      }
    case ExitIntent(found, _, _, _, _) =>
      if found.Some? && found.value in s.tenancies {
        RowOk(s, found.value);
      }
  }

  /** Commits move bed counters only. */
  lemma CommitKeepsRooms(s: State, request: InFlight)
    ensures SameRooms(s.rooms, CommitTo(s, request).rooms)
  {
    hide OnboardCommit, ShiftCommit, ExitCommit;
    match request
    case Onboards(r, today, month) => OnboardedRooms(s, r, today, month);
    case Shifts(plan) =>
      if ShiftCommit(s, plan).result.Ok? {
        ShiftedRooms(s, plan);
      } else {
        ShiftRefused(s, plan);
      }
    case Exits(plan, now) => ExitedRooms(s, plan, now);
  }

  lemma OnboardedRooms(s: State, r: Onboarding, today: Time, month: Month)
    ensures SameRooms(s.rooms, OnboardCommit(s, r, today, month).db.rooms)
  {
    hide OpenTenancy, InsertDues, FirstDues, AddBeds, SameRooms;
    SameRoomsAfter(s.rooms, r.roomId, 1);
    if r.roomId in s.rooms {
      ArrivalRooms(s, r, today);
    }
  }

  lemma SameRoomsAfter(rooms: Rooms, roomId: Id, delta: int)
    ensures SameRooms(rooms, rooms) && (roomId in rooms ==> SameRooms(rooms, AddBeds(rooms, roomId, delta)))
  {
  }

  lemma ExitedRooms(s: State, plan: ExitPlan, now: Time)
    ensures SameRooms(s.rooms, ExitCommit(s, plan, now).db.rooms)
  {
    hide SetTenancy;
  }

  lemma DescribesKept(rooms: Rooms, rooms': Rooms, request: InFlight)
    requires Describes(rooms, request) && SameRooms(rooms, rooms')
    ensures Describes(rooms', request)
  {
  }

  ghost predicate PlansDescribe(w: World) {
    forall id :: id in w.inFlight ==> Describes(w.db.rooms, w.inFlight[id])
  }

  /** The event is a commit whose plan still fits, or no commit. */
  ghost predicate EventFits(w: World, e: Event)
    requires Enabled(w, e)
  {
    e.Commit? ==> StillFits(w.db, w.inFlight[e.request])
  }

  lemma EventKeepsInvExactly(w: World, e: Event)
    requires Enabled(w, e) && Inv(w.db) && PlansDescribe(w) && (e.Background? ==> Inv(e.after))
    ensures Inv(Next(w, e).db) <==> EventFits(w, e)
    ensures PlansDescribe(Next(w, e))
  {
    hide Inv, Preflight, CommitTo, Describes, StillFits;
    match e
    case Begin(id, intent) =>
      if Preflight(w.db, intent).Ok? {
        PreflightDescribes(w.db, intent);
      }
    case Commit(id) =>
      CommitKeepsInvExactly(w.db, w.inFlight[id]);
      CommitKeepsRooms(w.db, w.inFlight[id]);
      forall other | other in w.inFlight
        ensures Describes(CommitTo(w.db, w.inFlight[id]).rooms, w.inFlight[other])
      {
        DescribesKept(w.db.rooms, CommitTo(w.db, w.inFlight[id]).rooms, w.inFlight[other]);
      }
    case Background(after) =>
  }

  /**
   The invariant under concurrency. From a sound database without requests in flight, and with other services that
   keep it sound, every state of an interleaving is sound if and only if every commit finds its plan still fitting.
   */
  lemma {:induction false} InvUnderConcurrency(worlds: seq<World>, events: seq<Event>)
    requires IsInterleaving(worlds, events) && Inv(worlds[0].db) && worlds[0].inFlight == map[]
    requires forall i :: 0 <= i < |events| ==> events[i].Background? ==> Inv(events[i].after)
    ensures (forall i :: 0 <= i < |worlds| ==> Inv(worlds[i].db))
            <==> forall i :: 0 <= i < |events| ==> EventFits(worlds[i], events[i])
  {
    hide Inv, Enabled, Next, EventFits;
    if forall i :: 0 <= i < |worlds| ==> Inv(worlds[i].db) {
      forall i | 0 <= i < |events|
        ensures EventFits(worlds[i], events[i])
      {
        SoundSoFar(worlds, events, i);
        assert worlds[i + 1] == Next(worlds[i], events[i]) && Inv(worlds[i + 1].db);
        EventKeepsInvExactly(worlds[i], events[i]);
      }
    }
    if forall i :: 0 <= i < |events| ==> EventFits(worlds[i], events[i]) {
      forall i | 0 <= i < |worlds|
        ensures Inv(worlds[i].db)
      {
        FittingSoFar(worlds, events, i);
      }
    }
  }

  lemma {:induction false} SoundSoFar(worlds: seq<World>, events: seq<Event>, n: nat)
    requires IsInterleaving(worlds, events) && worlds[0].inFlight == map[] && n < |worlds|
    requires forall i :: 0 <= i < |worlds| ==> Inv(worlds[i].db)
    requires forall i :: 0 <= i < |events| ==> events[i].Background? ==> Inv(events[i].after)
    ensures PlansDescribe(worlds[n])
  {
    hide Inv, Enabled, Next, EventFits, Describes;
    if n > 0 {
      SoundSoFar(worlds, events, n - 1);
      EventKeepsInvExactly(worlds[n - 1], events[n - 1]);
    }
  }

  lemma {:induction false} FittingSoFar(worlds: seq<World>, events: seq<Event>, n: nat)
    requires IsInterleaving(worlds, events) && Inv(worlds[0].db) && worlds[0].inFlight == map[] && n < |worlds|
    requires forall i :: 0 <= i < |events| ==> EventFits(worlds[i], events[i])
    requires forall i :: 0 <= i < |events| ==> events[i].Background? ==> Inv(events[i].after)
    ensures Inv(worlds[n].db) && PlansDescribe(worlds[n])
  {
    hide Inv, Enabled, Next, EventFits, Describes;
    if n > 0 {
      FittingSoFar(worlds, events, n - 1);
      EventKeepsInvExactly(worlds[n - 1], events[n - 1]);
    }
  }

  /** Two exits of one tenancy that both passed their pre-flight read give up two beds for one tenant. */
  lemma OverlappingExitsLoseABed(s: State, found: Option<Id>, tenantId: Id, propertyId: Id, ownerId: Id, now: Time)
    requires Inv(s) && ExitPreflight(s, found, tenantId, propertyId, ownerId).Ok?
    ensures var plan := ExitPreflight(s, found, tenantId, propertyId, ownerId).value;
            var s' := CommitTo(CommitTo(s, Exits(plan, now)), Exits(plan, now));
            && plan.roomId in s'.rooms
            && s'.rooms[plan.roomId].occupiedBeds == |Beds(s'.tenancies, plan.roomId)| - 1
            && !OccupancyOk(s'.rooms, s'.tenancies)
  {
    hide Inv, Beds, OpenDues;
    var plan := ExitPreflight(s, found, tenantId, propertyId, ownerId).value;
    RowOk(s, plan.tenancyId);
    var once := CommitTo(s, Exits(plan, now));
    var row := once.tenancies[plan.tenancyId];
    BedsAfter(s.tenancies, plan.tenancyId, row, plan.roomId);
    BedsAfter(once.tenancies, plan.tenancyId, row, plan.roomId);
    CountedBeds(s, plan.roomId);
  }
}
