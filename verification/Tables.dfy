/**
 The tables that the services read and write, as one value (State) and as the object whose
 fields the services update (Database). Rows are keyed by their id; ids come from one counter.
 */
module Tables {
  import opened Calendar
  import opened Text

  type Id = int
  type Money = real

  datatype Month = Month(month: int, year: int)

  // -------------------------------------------------------------- tenancy rows

  datatype TenancyStatus = Active | NoticePeriod | Exited | Evicted | Pending

  datatype Room = Room(propertyId: Id, totalBeds: int, occupiedBeds: int, hasMeter: bool,
      initialMeterReading: Option<real>)

  datatype Tenancy = Tenancy(
    roomId: Id, tenantId: Id, propertyId: Id, status: TenancyStatus,
    joinedAt: Time, leftAt: Option<Time>, deletedAt: Option<Time>, nextBillingDate: Option<Time>)

  /** The statuses that occupy a bed and may be billed. */
  predicate Live(status: TenancyStatus) {
    status == Active || status == NoticePeriod || status == Pending
  }

  // --------------------------------------------------------- dues and payments

  datatype DueStatus = Unpaid | Partial | Paid | Waived | Overdue

  datatype DueType = Rent | SecurityDeposit | Electricity | Water | Maintenance | Fine | Other

  datatype Due = Due(
    tenancyId: Id, propertyId: Id, dueType: DueType, month: Month,
    total: Money, paid: Money, balance: Money, status: DueStatus)

  /** Money is still owed, in the eyes of the services that look for pending dues. */
  predicate Open(status: DueStatus) {
    status == Unpaid || status == Partial || status == Overdue
  }

  datatype Payment = Payment(dueId: Id, tenancyId: Id, propertyId: Id, amount: Money)

  datatype TransactionStatus = Initiated | Success | Failed | Cancelled

  /** One due and its share of a multi-due payment. */
  datatype Line = Line(dueId: Id, amount: Money)

  /** A gateway transaction pays one due (dueId) or, with dueId empty, the dues of its lines. */
  datatype Transaction = Transaction(
    dueId: Option<Id>, lines: seq<Line>, propertyId: Id, amount: Money, status: TransactionStatus)

  datatype Settlement = Settlement(propertyId: Id, grossAmount: Money)

  // ------------------------------------------------------- metrics and meters

  datatype Metrics = Metrics(generated: Money, paid: Money, unpaid: Money)

  datatype MainReading = MainReading(previous: real, current: real, unitConsumed: real, unitPrice: real)

  datatype RoomReading = RoomReading(propertyId: Id, previous: real, current: real, unitConsumed: real)

  datatype RunStatus = RunPending | WaitingMainMeter | Completed | Skipped

  datatype BillingRun = BillingRun(
    status: RunStatus, mainMeterUnits: real, privateRoomsUnits: real, sharedPoolUnits: real, unitPrice: real,
    totalDaysPool: Option<int>, perDayRate: Option<real>)

  // ----------------------------------------------------------------- database

  type Rooms = map<Id, Room>
  type TenancyTable = map<Id, Tenancy>
  type Dues = map<Id, Due>
  type Payments = map<Id, Payment>
  type Transactions = map<Id, Transaction>
  type Settlements = map<Id, Settlement>
  type MetricsTable = map<(Id, Month), Metrics>

  /** Settlements are keyed by their payment transaction, readings and runs by their unique month. */
  datatype State = State(
    nextId: int,
    owners: map<Id, Id>,
    rooms: Rooms,
    tenancies: TenancyTable,
    movedIn: set<Id>,
    dues: Dues,
    payments: Payments,
    transactions: Transactions,
    gateways: set<Id>,
    settlements: Settlements,
    pendingSettlement: map<Id, Money>,
    metrics: MetricsTable,
    mainReadings: map<(Id, Month), MainReading>,
    roomReadings: map<(Id, Month), RoomReading>,
    runs: map<(Id, Month), BillingRun>)

  datatype Error = BadRequest | NotFound | Forbidden | Conflict | Unauthorized | ConstraintViolation

  datatype Result<+T> = Ok(value: T) | Err(error: Error)

  /** What an operation leaves in the database and answers. */
  datatype Reply<+T> = Reply(db: State, result: Result<T>)

  function Fail<T>(s: State, error: Error): Reply<T> {
    Reply(s, Err(error))
  }

  predicate Owns(s: State, ownerId: Id, propertyId: Id) {
    propertyId in s.owners && s.owners[propertyId] == ownerId
  }

  class Database {
    var nextId: int
    var owners: map<Id, Id>
    var rooms: Rooms
    var tenancies: TenancyTable
    var movedIn: set<Id>
    var dues: Dues
    var payments: Payments
    var transactions: Transactions
    var gateways: set<Id>
    var settlements: Settlements
    var pendingSettlement: map<Id, Money>
    var metrics: MetricsTable
    var mainReadings: map<(Id, Month), MainReading>
    var roomReadings: map<(Id, Month), RoomReading>
    var runs: map<(Id, Month), BillingRun>

    function Snapshot(): State
      reads this
    {
      State(nextId, owners, rooms, tenancies, movedIn, dues, payments, transactions, gateways,
            settlements, pendingSettlement, metrics, mainReadings, roomReadings, runs)
    }
  }
}
