/** Meter readings of a month and the billing run that turns them into dues. */
module ElectricityRules {
  import opened Allocation
  import opened DueRules
  import opened Queries
  import opened Sums
  import opened Tables
  import opened Text

  // ---------------------------------------------------------------- readings

  datatype RoomSubmission = RoomSubmission(roomId: Id, previous: real, current: real)

  datatype Submission = Submission(
    month: Month, mainPrevious: real, mainCurrent: real, unitPrice: real, rooms: seq<RoomSubmission>)

  function PreviousMonth(m: Month): Month {
    if m.month == 1 then Month(12, m.year - 1) else Month(m.month - 1, m.year)
  }

  predicate After(m: Month, now: Month) {
    m.year > now.year || (m.year == now.year && m.month > now.month)
  }

  /** A month already submitted keeps its previous reading; a new one continues the month before. */
  function ExpectedMain(s: State, propertyId: Id, month: Month): real {
    if (propertyId, month) in s.mainReadings then s.mainReadings[(propertyId, month)].previous
    else if (propertyId, PreviousMonth(month)) in s.mainReadings
    then s.mainReadings[(propertyId, PreviousMonth(month))].current
    else 0.0
  }

  predicate HasRoomReading(s: State, propertyId: Id, roomId: Id, month: Month) {
    (roomId, month) in s.roomReadings && s.roomReadings[(roomId, month)].propertyId == propertyId
  }

  function ExpectedRoom(s: State, propertyId: Id, roomId: Id, month: Month): real
    requires roomId in s.rooms
  {
    if HasRoomReading(s, propertyId, roomId, month) then s.roomReadings[(roomId, month)].previous
    else if HasRoomReading(s, propertyId, roomId, PreviousMonth(month))
    then s.roomReadings[(roomId, PreviousMonth(month))].current
    else if s.rooms[roomId].initialMeterReading.Some? then s.rooms[roomId].initialMeterReading.value
    else 0.0
  }

  function MeteredRooms(s: State, propertyId: Id): set<Id> {
    set r | r in s.rooms && s.rooms[r].propertyId == propertyId && s.rooms[r].hasMeter
  }

  function SubmittedRooms(rooms: seq<RoomSubmission>): set<Id> {
    set i | 0 <= i < |rooms| :: rooms[i].roomId
  }

  function RoomUnits(rooms: seq<RoomSubmission>): real {
    if rooms == [] then 0.0
    else RoomUnits(rooms[..|rooms| - 1]) + (rooms[|rooms| - 1].current - rooms[|rooms| - 1].previous)
  }

  /** Some electricity due of the month has been collected, in part or in full. */
  predicate ElectricityCollected(s: State, propertyId: Id, month: Month) {
    exists d :: d in s.dues && IsElectricityDue(s.dues[d], propertyId, month)
                && (s.dues[d].status == Paid || s.dues[d].status == Partial)
  }

  predicate IsElectricityDue(due: Due, propertyId: Id, month: Month) {
    due.dueType == Electricity && due.propertyId == propertyId && due.month == month
  }

  predicate ValidSubmission(x: Submission) {
    && 1 <= x.month.month <= 12 && x.month.year >= 2020
    && x.mainPrevious >= 0.0 && x.mainCurrent >= 0.0 && x.unitPrice >= 0.01
    && forall i :: 0 <= i < |x.rooms| ==> x.rooms[i].previous >= 0.0 && x.rooms[i].current >= 0.0
  }

  /** The previous reading is the stored one and the meter did not run backwards. */
  predicate Continues(s: State, propertyId: Id, month: Month, r: RoomSubmission)
    requires r.roomId in s.rooms
  {
    r.previous == ExpectedRoom(s, propertyId, r.roomId, month) && r.previous <= r.current
  }

  ghost predicate AcceptsReadings(s: State, propertyId: Id, x: Submission, now: Month) {
    && ValidSubmission(x)
    && !After(x.month, now)
    && x.mainPrevious == ExpectedMain(s, propertyId, x.month)
    && x.mainPrevious <= x.mainCurrent
    && SubmittedRooms(x.rooms) == MeteredRooms(s, propertyId)
    && (forall i :: 0 <= i < |x.rooms| ==>
          x.rooms[i].roomId in s.rooms && Continues(s, propertyId, x.month, x.rooms[i]))
    && RoomUnits(x.rooms) <= x.mainCurrent - x.mainPrevious
    && !ElectricityCollected(s, propertyId, x.month)
  }

  /** Store the room readings one after the other. */
  function StoreRooms(readings: map<(Id, Month), RoomReading>, propertyId: Id, month: Month,
          rooms: seq<RoomSubmission>):
    map<(Id, Month), RoomReading>
  {
    if rooms == [] then readings
    else
      var before, r := StoreRooms(readings, propertyId, month, rooms[..|rooms| - 1]), rooms[|rooms| - 1];
      var owner := if (r.roomId, month) in before then before[(r.roomId, month)].propertyId else propertyId;
      before[(r.roomId, month) := RoomReading(owner, r.previous, r.current, r.current - r.previous)]
  }

  function StoreReadings(s: State, propertyId: Id, x: Submission): State {
    var key, units, roomUnits := (propertyId, x.month), x.mainCurrent - x.mainPrevious, RoomUnits(x.rooms);
    var run := if key in s.runs
               then s.runs[key].(status := RunPending, mainMeterUnits := units, privateRoomsUnits := roomUnits,
                                 sharedPoolUnits := units - roomUnits, unitPrice := x.unitPrice)
               else BillingRun(RunPending, units, roomUnits, units - roomUnits, x.unitPrice, None, None);
    s.(mainReadings := s.mainReadings[key := MainReading(x.mainPrevious, x.mainCurrent, units, x.unitPrice)],
       roomReadings := StoreRooms(s.roomReadings, propertyId, x.month, x.rooms),
       runs := s.runs[key := run])
  }

  ghost function SubmitAllReadings(s: State, propertyId: Id, ownerId: Id, x: Submission, now: Month): Reply<()> {
    if !Owns(s, ownerId, propertyId) then Fail(s, NotFound)
    else if !AcceptsReadings(s, propertyId, x, now) then Fail(s, BadRequest)
    else Reply(StoreReadings(s, propertyId, x), Ok(()))
  }

  // ------------------------------------------------------------- billing run

  predicate IsCompleted(s: State, propertyId: Id, month: Month) {
    (propertyId, month) in s.runs && s.runs[(propertyId, month)].status == Completed
  }

  /** Units of the stored room readings of the property and month. */
  function ReadingByRoom(s: State, propertyId: Id, month: Month): map<Id, real> {
    map r | r in (set k | k in s.roomReadings && k.1 == month && s.roomReadings[k].propertyId == propertyId :: k.0) ::
      s.roomReadings[(r, month)].unitConsumed
  }

  function ActiveTenancies(s: State, propertyId: Id): set<Id> {
    set t | t in s.tenancies && s.tenancies[t].propertyId == propertyId && s.tenancies[t].status == Active
            && s.tenancies[t].deletedAt.None?
  }

  function ActiveRow(s: State, t: Id): ActiveTenancy
    requires t in s.tenancies
  {
    var row := s.tenancies[t];
    ActiveTenancy(t, row.tenantId, row.propertyId, row.roomId, row.joinedAt, row.leftAt)
  }

  function ActiveRows(s: State, order: seq<Id>): seq<ActiveTenancy>
    requires forall t :: t in order ==> t in s.tenancies
  {
    seq(|order|, i requires 0 <= i < |order| => assert order[i] in order; ActiveRow(s, order[i]))
  }

  /** order and roomOrder are the rows of the tenancy and room queries, in the order they came back. */
  ghost predicate QueryOrders(s: State, propertyId: Id, order: seq<Id>, roomOrder: seq<Id>) {
    Lists(order, ActiveTenancies(s, propertyId)) && Lists(roomOrder, MeteredRooms(s, propertyId))
  }

  ghost function RawPool(s: State, propertyId: Id, month: Month): real
    requires (propertyId, month) in s.mainReadings
  {
    s.mainReadings[(propertyId, month)].unitConsumed - Total(ReadingByRoom(s, propertyId, month))
  }

  ghost function RunInputs(s: State, propertyId: Id, month: Month, order: seq<Id>, roomOrder: seq<Id>): Inputs
    requires (propertyId, month) in s.mainReadings
    requires QueryOrders(s, propertyId, order, roomOrder)
  {
    Inputs(ActiveRows(s, order), roomOrder,
           ReadingByRoom(s, propertyId, month), RawPool(s, propertyId, month),
           s.mainReadings[(propertyId, month)].unitPrice, month.month, month.year)
  }

  /** The dues that a run replaces: unpaid electricity dues of the month. */
  function ReplacedDues(s: State, propertyId: Id, month: Month): set<Id> {
    set d | d in s.dues && IsElectricityDue(s.dues[d], propertyId, month)
            && (s.dues[d].status == Unpaid || s.dues[d].status == Overdue)
  }

  function BillDue(a: Allocation, month: Month): Due {
    NewDue(a.tenancyId, a.propertyId, Electricity, month, a.amount as real)
  }

  function BillDues(bills: seq<Allocation>, month: Month): seq<Due> {
    seq(|bills|, i requires 0 <= i < |bills| => BillDue(bills[i], month))
  }

  function CompletedRun(main: MainReading, privateUnits: real, r: AllocationResult): BillingRun {
    BillingRun(Completed, main.unitConsumed, privateUnits, r.effectiveSharedPoolUnits, main.unitPrice,
               if r.poolTenancyDays > 0 then Some(r.poolTenancyDays) else None,
               if r.poolTenancyDays > 0 then Some(r.perDayRate) else None)
  }

  ghost predicate RunnableReadings(s: State, propertyId: Id, month: Month) {
    && (propertyId, month) in s.mainReadings
    && (forall r :: r in MeteredRooms(s, propertyId) ==> r in ReadingByRoom(s, propertyId, month))
    && RawPool(s, propertyId, month) >= 0.0
  }

  /** Ok(None) means that the run was skipped because it is already completed. */
  ghost function RunBilling(s: State, propertyId: Id, month: Month, order: seq<Id>,
          roomOrder: seq<Id>): Reply<Option<seq<Allocation>>>
    requires QueryOrders(s, propertyId, order, roomOrder)
  {
    if propertyId !in s.owners then Fail(s, NotFound)
    else if IsCompleted(s, propertyId, month) then Reply(s, Ok(None))
    else if ElectricityCollected(s, propertyId, month) then Fail(s, BadRequest)
    else if !RunnableReadings(s, propertyId, month) then Fail(s, BadRequest)
    else
      var gone := ReplacedDues(s, propertyId, month);
      if exists d :: d in gone && Referenced(s, d) then Fail(s, ConstraintViolation)
      else
        var r := Allocations(RunInputs(s, propertyId, month, order, roomOrder));
        var run := CompletedRun(s.mainReadings[(propertyId, month)], Total(ReadingByRoom(s, propertyId, month)), r);
        Reply(InsertDues(RemoveDues(s, gone), BillDues(r.allocations, month)).(
                runs := s.runs[(propertyId, month) := run]),
              Ok(Some(r.allocations)))
  }
}
