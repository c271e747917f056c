/** What every reachable database satisfies, table by table. */
module Invariants {
  import opened DueRules
  import opened ElectricityRules
  import opened PaymentRules
  import opened Sums
  import opened Tables
  import opened Text

  // --------------------------------------------------------------- the parts

  /** The counter is above every id in use. */
  ghost predicate FreshIds(s: State) {
    && (forall t :: t in s.tenancies ==> t < s.nextId)
    && (forall d :: d in s.dues ==> d < s.nextId)
    && (forall p :: p in s.payments ==> p < s.nextId)
    && (forall t :: t in s.transactions ==> t < s.nextId)
  }

  /** The tenancies that hold a bed of a room. */
  ghost function Beds(tenancies: TenancyTable, roomId: Id): set<Id> {
    set t | t in tenancies && tenancies[t].roomId == roomId && Live(tenancies[t].status)
  }

  /** A tenancy row agrees with its room, and is soft-deleted exactly when it is no longer live. */
  ghost predicate TenancyOk(rooms: Rooms, t: Tenancy) {
    && t.roomId in rooms
    && t.propertyId == rooms[t.roomId].propertyId
    && (t.deletedAt.None? <==> Live(t.status))
    && t.status != Evicted
  }

  /** Exact occupancy: the counter of each room is the number of live tenancies in it. */
  ghost predicate OccupancyOk(rooms: Rooms, tenancies: TenancyTable) {
    && (forall t :: t in tenancies ==> TenancyOk(rooms, tenancies[t]))
    && (forall r :: r in rooms ==> rooms[r].occupiedBeds == |Beds(tenancies, r)|)
  }

  /** No debt leaves with a tenant: an open due belongs to a tenancy that has not exited, in the same property. */
  ghost predicate DebtOk(tenancies: TenancyTable, dues: Dues) {
    forall d :: d in dues ==>
      && dues[d].tenancyId in tenancies
      && (Open(dues[d].status) ==>
            && tenancies[dues[d].tenancyId].status != Exited
            && tenancies[dues[d].tenancyId].propertyId == dues[d].propertyId)
  }

  function PaymentsOf(payments: Payments, dueId: Id): map<Id, Money> {
    map p | p in payments && payments[p].dueId == dueId :: payments[p].amount
  }

  /** The sum of the payments recorded for a due. */
  ghost function PaidInto(payments: Payments, dueId: Id): Money {
    Total(PaymentsOf(payments, dueId))
  }

  /** A due row agrees with what was paid into it. */
  ghost predicate DueOk(due: Due, paid: Money) {
    && due.total >= 0.0
    && due.paid == paid
    && due.balance == (if due.total - paid > 0.0 then due.total - paid else 0.0)
    && match due.status
       case Unpaid => paid == 0.0
       case Partial => paid > 0.0 && due.balance > 0.0
       case Paid => due.balance == 0.0
       case Waived => false
       case Overdue => false
  }

  ghost predicate LedgerOk(dues: Dues, payments: Payments) {
    && (forall d :: d in dues ==> DueOk(dues[d], PaidInto(payments, d)))
    && (forall p :: p in payments ==> payments[p].dueId in dues && payments[p].amount > 0.0)
  }

  /** A transaction pays one existing due or a set of distinct existing dues that add up to its amount. */
  ghost predicate TransactionOk(dues: Dues, t: Transaction) {
    && t.amount > 0.0
    && (t.dueId.Some? ==> t.dueId.value in dues && t.lines == [])
    && (forall i :: 0 <= i < |t.lines| ==> t.lines[i].dueId in dues)
    && DistinctDues(t.lines) && PositiveLines(t.lines)
    && (t.lines != [] ==> LineTotal(t.lines) == t.amount)
  }

  ghost predicate TransactionsOk(transactions: Transactions, dues: Dues) {
    forall t :: t in transactions ==> TransactionOk(dues, transactions[t])
  }

  /** The due of a single-due transaction was deleted. */
  predicate Detached(t: Transaction) {
    t.dueId.None? && t.lines == []
  }

  /** A settlement row exists for every paid transaction, and for no other one that still has its due. */
  ghost predicate SettledOk(transactions: Transactions, settlements: Settlements) {
    && (forall t :: t in transactions && transactions[t].status == Success ==> t in settlements)
    && (forall t :: t in settlements ==>
          && t in transactions
          && (transactions[t].status == Success || Detached(transactions[t]))
          && settlements[t] == Settlement(transactions[t].propertyId, transactions[t].amount))
  }

  function GrossOf(settlements: Settlements, propertyId: Id): map<Id, Money> {
    map t | t in settlements && settlements[t].propertyId == propertyId :: settlements[t].grossAmount
  }

  function PendingOf(pending: map<Id, Money>, propertyId: Id): Money {
    if propertyId in pending then pending[propertyId] else 0.0
  }

  /** Each property's pending amount is the sum of its settlement rows. */
  ghost predicate PendingOk(settlements: Settlements, pending: map<Id, Money>) {
    forall p: Id :: PendingOf(pending, p) == Total(GrossOf(settlements, p))
  }

  /** Readings exist for exactly the metered rooms, never run backwards and never exceed the main meter. */
  ghost predicate ReadingsOk(s: State) {
    && (forall k :: k in s.roomReadings ==>
          && k.0 in MeteredRooms(s, s.roomReadings[k].propertyId)
          && s.roomReadings[k].unitConsumed == s.roomReadings[k].current - s.roomReadings[k].previous >= 0.0)
    && (forall k :: k in s.mainReadings ==>
          && s.mainReadings[k].unitConsumed == s.mainReadings[k].current - s.mainReadings[k].previous >= 0.0
          && s.mainReadings[k].unitPrice > 0.0
          && ReadingByRoom(s, k.0, k.1).Keys == MeteredRooms(s, k.0)
          && RawPool(s, k.0, k.1) >= 0.0)
  }

  ghost predicate Inv(s: State) {
    && FreshIds(s)
    && OccupancyOk(s.rooms, s.tenancies)
    && DebtOk(s.tenancies, s.dues)
    && LedgerOk(s.dues, s.payments)
    && TransactionsOk(s.transactions, s.dues)
    && SettledOk(s.transactions, s.settlements)
    && PendingOk(s.settlements, s.pendingSettlement)
    && ReadingsOk(s)
  }

  /** The readings and the rooms they belong to are as before, apart from bed counts. */
  ghost predicate SameMeters(s: State, s': State) {
    && s'.roomReadings == s.roomReadings && s'.mainReadings == s.mainReadings
    && s'.rooms.Keys == s.rooms.Keys
    && (forall r :: r in s.rooms ==>
          s'.rooms[r].propertyId == s.rooms[r].propertyId && s'.rooms[r].hasMeter == s.rooms[r].hasMeter)
  }

  lemma MetersKept(s: State, s': State, propertyId: Id, month: Month)
    requires SameMeters(s, s')
    ensures MeteredRooms(s', propertyId) == MeteredRooms(s, propertyId)
    ensures ReadingByRoom(s', propertyId, month) == ReadingByRoom(s, propertyId, month)
  {
    forall r
      ensures r in MeteredRooms(s', propertyId) <==> r in MeteredRooms(s, propertyId)
    {
      assert r in s.rooms.Keys <==> r in s'.rooms.Keys;
    }
  }

  lemma ReadingsKept(s: State, s': State)
    requires ReadingsOk(s) && SameMeters(s, s')
    ensures ReadingsOk(s')
  {
    hide ReadingByRoom, MeteredRooms, Total;
    forall k | k in s.mainReadings
      ensures ReadingByRoom(s', k.0, k.1).Keys == MeteredRooms(s', k.0) && RawPool(s', k.0, k.1) >= 0.0
    {
      MetersKept(s, s', k.0, k.1);
    }
    forall k | k in s.roomReadings
      ensures k.0 in MeteredRooms(s', s.roomReadings[k].propertyId)
    {
      MetersKept(s, s', s.roomReadings[k].propertyId, k.1);
    }
  }

  // ------------------------------------------------------------ adding a due

  /** What a new due must satisfy. */
  ghost predicate Addable(s: State, due: Due) {
    && due.tenancyId in s.tenancies
    && s.tenancies[due.tenancyId].status != Exited
    && s.tenancies[due.tenancyId].propertyId == due.propertyId
    && due.status == Unpaid && due.paid == 0.0 && due.balance == due.total >= 0.0
  }

  lemma NothingPaidInto(payments: Payments, dueId: Id)
    requires forall p :: p in payments ==> payments[p].dueId != dueId
    ensures PaidInto(payments, dueId) == 0.0
  {
    var m := PaymentsOf(payments, dueId);
    forall p
      ensures p !in m
    {
    }
    assert m == map[];
  }

  lemma InsertDueKeeps(s: State, due: Due)
    requires Inv(s) && Addable(s, due)
    ensures Inv(InsertDue(s, due))
  {
    hide PaidInto, SettledOk, PendingOk, OccupancyOk;
    var s' := InsertDue(s, due);
    NothingPaidInto(s.payments, s.nextId);
    ReadingsKept(s, s');
  }

  lemma {:induction false} InsertDuesKeeps(s: State, dues: seq<Due>)
    requires Inv(s)
    requires forall i :: 0 <= i < |dues| ==> Addable(s, dues[i])
    ensures Inv(InsertDues(s, dues))
    decreases |dues|
  {
    hide Inv;
    if dues != [] {
      InsertDuesKeeps(s, dues[..|dues| - 1]);
      InsertDueKeeps(InsertDues(s, dues[..|dues| - 1]), dues[|dues| - 1]);
    }
  }

  lemma DuesAreFresh(s: State)
    requires Inv(s)
    ensures forall d :: d in s.dues ==> d < s.nextId
  {
  }

  lemma PaymentIdIsFresh(s: State)
    requires Inv(s)
    ensures s.nextId !in s.payments
  {
  }

  /** Inserted dues get consecutive fresh ids, in order, and nothing else changes. */
  lemma {:induction false} InsertDuesExact(s: State, dues: seq<Due>)
    requires forall d :: d in s.dues ==> d < s.nextId
    ensures var s' := InsertDues(s, dues);
            && s'.nextId == s.nextId + |dues|
            && (forall d :: d in s'.dues <==> d in s.dues || s.nextId <= d < s.nextId + |dues|)
            && (forall d :: d in s.dues ==> s'.dues[d] == s.dues[d])
            && (forall k :: 0 <= k < |dues| ==> s'.dues[s.nextId + k] == dues[k])
    decreases |dues|
  {
    if dues != [] {
      InsertDuesExact(s, dues[..|dues| - 1]);
    }
  }

  // ------------------------------------------------------- recording a payment

  lemma PaidIntoAdd(payments: Payments, id: Id, payment: Payment, dueId: Id)
    requires id !in payments
    ensures PaidInto(payments[id := payment], dueId)
            == PaidInto(payments, dueId) + (if payment.dueId == dueId then payment.amount else 0.0)
  {
    hide Total;
    if payment.dueId == dueId {
      TotalInsert(PaymentsOf(payments, dueId), id, payment.amount);
      assert PaymentsOf(payments[id := payment], dueId) == PaymentsOf(payments, dueId)[id := payment.amount];
    } else {
      assert PaymentsOf(payments[id := payment], dueId) == PaymentsOf(payments, dueId);
    }
  }

  lemma PaidRowOk(due: Due, paid: Money, amount: Money)
    requires DueOk(due, paid) && amount > 0.0
    ensures DueOk(PayInto(due, amount), paid + amount)
    ensures PayInto(due, amount) == due.(paid := PayInto(due, amount).paid, balance := PayInto(due, amount).balance,
                                         status := PayInto(due, amount).status)
    ensures due.status == Paid || Open(due.status)
  {
  }

  lemma RecordPaymentKeeps(s: State, dueId: Id, amount: Money)
    requires Inv(s) && dueId in s.dues && s.dues[dueId].status != Paid && amount > 0.0
    ensures Inv(RecordPayment(s, dueId, s.dues[dueId], amount))
  {
    hide DueOk, PayInto, PaidInto, SettledOk, PendingOk, OccupancyOk;
    var due := s.dues[dueId];
    var s' := RecordPayment(s, dueId, due, amount);
    var payment := PaymentFor(dueId, due, amount);
    PaidRowOk(due, PaidInto(s.payments, dueId), amount);
    forall d | d in s'.dues
      ensures DueOk(s'.dues[d], PaidInto(s'.payments, d))
    {
      PaidIntoAdd(s.payments, s.nextId, payment, d);
    }
    ReadingsKept(s, s');
  }

  // ------------------------------------------------------------ deleting dues

  lemma UnpaidHasNoPayments(s: State, dueId: Id)
    requires LedgerOk(s.dues, s.payments) && dueId in s.dues && s.dues[dueId].status == Unpaid
    ensures forall p :: p in s.payments ==> s.payments[p].dueId != dueId
  {
    var m := PaymentsOf(s.payments, dueId);
    if p :| p in s.payments && s.payments[p].dueId == dueId {
      assert p in m;
      forall k | k in m
        ensures m[k] > 0.0
      {
        assert s.payments[k].amount > 0.0;
      }
      TotalPositive(m);
      assert false;
    }
  }

  lemma PaymentsSurvive(s: State, gone: set<Id>)
    requires LedgerOk(s.dues, s.payments)
    requires forall d :: d in gone ==> d in s.dues && !Referenced(s, d)
    ensures LedgerOk(RemoveDues(s, gone).dues, s.payments)
  {
    hide PaidInto, DueOk;
    forall p | p in s.payments
      ensures s.payments[p].dueId !in gone
    {
    }
  }

  lemma TransactionsSurvive(s: State, gone: set<Id>)
    requires TransactionsOk(s.transactions, s.dues)
    requires forall d :: d in gone ==> d in s.dues && !Referenced(s, d)
    ensures TransactionsOk(RemoveDues(s, gone).transactions, RemoveDues(s, gone).dues)
  {
    hide LineTotal, DistinctDues, PositiveLines;
    var s' := RemoveDues(s, gone);
    forall t | t in s'.transactions
      ensures TransactionOk(s'.dues, s'.transactions[t])
    {
      var row := s.transactions[t];
      assert TransactionOk(s.dues, row);
      forall i | 0 <= i < |row.lines|
        ensures row.lines[i].dueId in s'.dues
      {
        assert HasLine(row, row.lines[i].dueId);
        assert Referenced(s, row.lines[i].dueId);
      }
    }
  }

  /** Dues that no foreign key protects can go, whatever their status. */
  lemma RemoveDuesKeeps(s: State, gone: set<Id>)
    requires Inv(s)
    requires forall d :: d in gone ==> d in s.dues && !Referenced(s, d)
    ensures Inv(RemoveDues(s, gone))
  {
    hide LedgerOk, TransactionsOk, PendingOk, OccupancyOk, Referenced;
    PaymentsSurvive(s, gone);
    TransactionsSurvive(s, gone);
    ReadingsKept(s, RemoveDues(s, gone));
  }
}
