/**
 Overlapping webhook deliveries. A delivery reads that its transaction is INITIATED outside the database transaction
 that pays, so a second delivery of the same success can pass that check before the first one has paid.
 */
module WebhookRaces {
  import opened DueRules
  import Flows
  import opened Invariants
  import opened Numbers
  import opened PaymentProofs
  import opened PaymentRules
  import opened Sums
  import opened Tables
  import opened Text

  /** What a delivery does once its checks have passed, on the database as it is by then. */
  function Finish(s: State, txn: Id): State
    requires txn in s.transactions
  {
    var t, paid := s.transactions[txn], ProcessSuccessfulPayment(s, txn);
    if txn in paid.settlements then paid else Settle(paid, txn, t.propertyId, t.amount)
  }

  /** A delivery that nobody interrupts is its checks followed by this. */
  lemma UninterruptedDelivery(s: State, txn: Id, hashValid: bool, status: GatewayStatus)
    requires PaysOut(s, txn, hashValid, status)
    ensures HandleWebhook(s, txn, hashValid, status).db == Finish(s, txn)
  {
    hide ProcessSuccessfulPayment, Settle;
  }

  /** The dues that a transaction pays. */
  function DuesOf(t: Transaction): set<Id> {
    (if t.dueId.Some? then {t.dueId.value} else {}) + LineDues(t.lines)
  }

  /** Every due of the transaction is paid. */
  ghost predicate AllPaid(s: State, t: Transaction) {
    forall d :: d in DuesOf(t) ==> d in s.dues && s.dues[d].status == Paid
  }

  // ---------------------------------------------------------- when nothing is paid again

  lemma {:induction false} PaidLinesAreSkipped(s: State, read: Dues, lines: seq<Line>)
    requires forall i :: 0 <= i < |lines| ==> lines[i].dueId in read && read[lines[i].dueId].status == Paid
    ensures PayLines(s, read, lines) == s
    decreases |lines|
  {
    if lines != [] {
      PaidLinesAreSkipped(s, read, lines[..|lines| - 1]);
    }
  }

  /** A line whose due is not paid adds a payment row. */
  lemma {:induction false} PayLinesCount(s: State, lines: seq<Line>)
    requires Inv(s) && DistinctDues(lines) && PositiveLines(lines)
    requires forall i :: 0 <= i < |lines| ==> lines[i].dueId in s.dues
    ensures |PayLines(s, s.dues, lines).payments| >= |s.payments|
    ensures (exists i :: 0 <= i < |lines| && s.dues[lines[i].dueId].status != Paid) ==>
              |PayLines(s, s.dues, lines).payments| > |s.payments|
    decreases |lines|
  {
    hide Inv;
    if lines != [] {
      var front, line := lines[..|lines| - 1], lines[|lines| - 1];
      PayLinesCount(s, front);
      PayLinesKeeps(s, front);
      var before := PayLines(s, s.dues, front);
      if s.dues[line.dueId].status != Paid {
        PaymentIdIsFresh(before);
        assert |before.payments[before.nextId := PaymentFor(line.dueId, s.dues[line.dueId], line.amount)]|
            == |before.payments| + 1;
      } else if i :| 0 <= i < |lines| && s.dues[lines[i].dueId].status != Paid {
        assert front[i] == lines[i];
      }
    }
  }

  lemma AllLinesPaid(s: State, lines: seq<Line>)
    requires forall i :: 0 <= i < |lines| ==> lines[i].dueId in s.dues
    ensures (forall d :: d in LineDues(lines) ==> d in s.dues && s.dues[d].status == Paid)
            <==> forall i :: 0 <= i < |lines| ==> s.dues[lines[i].dueId].status == Paid
  {
    forall i | 0 <= i < |lines|
      ensures lines[i].dueId in LineDues(lines)
    {
    }
  }

  lemma MultiPaysAgain(s: State, lines: seq<Line>)
    requires Inv(s) && DistinctDues(lines) && PositiveLines(lines)
    requires forall i :: 0 <= i < |lines| ==> lines[i].dueId in s.dues
    ensures PayLines(s, s.dues, lines).payments == s.payments
            <==> forall i :: 0 <= i < |lines| ==> s.dues[lines[i].dueId].status == Paid
  {
    hide Inv, PayLines, DistinctDues, PositiveLines;
    PayLinesCount(s, lines);
    if forall i :: 0 <= i < |lines| ==> s.dues[lines[i].dueId].status == Paid {
      PaidLinesAreSkipped(s, s.dues, lines);
    }
  }

  lemma SinglePaysAgain(s: State, dueId: Id, amount: Money)
    requires Inv(s) && dueId in s.dues
    ensures RecordPayment(s, dueId, s.dues[dueId], amount).payments != s.payments
  {
    hide Inv, PayInto;
    PaymentIdIsFresh(s);
  }

  lemma PaysAgain(s: State, txn: Id)
    requires Inv(s) && txn in s.transactions
    ensures PaidDues(s, txn).payments == s.payments <==> AllPaid(s, s.transactions[txn])
  {
    hide FreshIds, OccupancyOk, DebtOk, LedgerOk, SettledOk, PendingOk, ReadingsOk, LineTotal, PayLines, LineDues,
         RecordPayment;
    var t := s.transactions[txn];
    assert TransactionOk(s.dues, t);
    AllLinesPaid(s, t.lines);
    if t.dueId.Some? {
      NoLineDues();
      SinglePaysAgain(s, t.dueId.value, t.amount);
    } else {
      MultiPaysAgain(s, t.lines);
    }
  }

  lemma NoLineDues()
    ensures LineDues([]) == {}
  {
  }

  lemma MarkRows(s: State, txn: Id)
    requires txn in s.transactions
    ensures var s' := SetStatus(s, txn, Success);
            && s'.payments == s.payments && s'.settlements == s.settlements && s'.dues == s.dues
            && s'.transactions == s.transactions[txn := s.transactions[txn].(status := Success)]
  {
  }

  lemma SettleRows(s: State, txn: Id, propertyId: Id, amount: Money)
    ensures var s' := Settle(s, txn, propertyId, amount);
            && s'.payments == s.payments && s'.transactions == s.transactions && s'.dues == s.dues
            && s'.settlements == s.settlements[txn := Settlement(propertyId, amount)]
  {
  }

  /** A settled transaction that has its dues is marked already. */
  lemma MarkedAlready(s: State, txn: Id)
    requires Inv(s) && txn in s.transactions && txn in s.settlements && !Detached(s.transactions[txn])
    ensures SetStatus(s, txn, Success) == s
  {
    hide FreshIds, OccupancyOk, DebtOk, LedgerOk, TransactionsOk, PendingOk, ReadingsOk;
    MapSame(s.transactions, txn);
  }

  lemma DetachedFinish(s: State, txn: Id)
    requires Inv(s) && txn in s.transactions && Detached(s.transactions[txn])
    ensures var t := s.transactions[txn];
            && Finish(s, txn) == (if txn in s.settlements then s else Settle(s, txn, t.propertyId, t.amount))
            && AllPaid(s, t)
  {
    hide Inv, ProcessSuccessfulPayment, Settle;
    ProcessedIs(s, txn);
    NoLineDues();
  }

  lemma AttachedFinish(s: State, txn: Id)
    requires Inv(s) && txn in s.transactions && !Detached(s.transactions[txn])
    ensures var t, marked := s.transactions[txn], SetStatus(PaidDues(s, txn), txn, Success);
            && Finish(s, txn) == (if txn in s.settlements then marked else Settle(marked, txn, t.propertyId, t.amount))
            && marked.settlements == s.settlements
  {
    hide Inv, ProcessSuccessfulPayment, Settle, PaidDues, SetStatus;
    ProcessedIs(s, txn);
    MarkRows(PaidDues(s, txn), txn);
  }

  /**
   A delivery that finishes late, in whatever sound state the database has reached by then: the database stays sound,
   but the dues are paid again exactly if one of them is not paid off, and a transaction that was decided otherwise in
   the meantime is decided again.
   */
  lemma LateDelivery(s: State, txn: Id)
    requires Inv(s) && txn in s.transactions
    ensures Inv(Finish(s, txn))
    ensures Finish(s, txn).payments == s.payments <==> AllPaid(s, s.transactions[txn])
    ensures txn in Finish(s, txn).settlements && (txn in s.settlements ==> Finish(s, txn).settlements == s.settlements)
    ensures txn in Finish(s, txn).transactions
    ensures Finish(s, txn).transactions[txn].status
            == if Detached(s.transactions[txn]) then s.transactions[txn].status else Success
  {
    hide Inv, Finish, PaidDues, SetStatus, Settle, AllPaid;
    var t := s.transactions[txn];
    if Detached(t) {
      DetachedFinish(s, txn);
      SettleRows(s, txn, t.propertyId, t.amount);
      if txn !in s.settlements {
        SettleKeeps(s, txn, false);
      }
    } else {
      var paid := PaidDues(s, txn);
      AttachedFinish(s, txn);
      PaysAgain(s, txn);
      PaidDuesKeeps(s, txn);
      MarkRows(paid, txn);
      SettleRows(SetStatus(paid, txn, Success), txn, t.propertyId, t.amount);
      if txn !in s.settlements {
        SettleKeeps(paid, txn, true);
      } else {
        MarkedAlready(paid, txn);
      }
    }
  }

  // ------------------------------------------------------------- two deliveries at once

  /** The payment pays each of its dues off, or finds it paid. */
  ghost predicate PaysOff(s: State, t: Transaction) {
    && (t.dueId.Some? ==> t.dueId.value in s.dues && Settles(s.dues[t.dueId.value], t.amount))
    && forall i :: 0 <= i < |t.lines| ==>
          t.lines[i].dueId in s.dues && Settles(s.dues[t.lines[i].dueId], t.lines[i].amount)
  }

  predicate Settles(due: Due, amount: Money) {
    due.status == Paid || amount >= due.balance
  }

  lemma PaidByPaying(due: Due, amount: Money)
    ensures (if due.status == Paid then due else PayInto(due, amount)).status == Paid <==> Settles(due, amount)
  {
  }

  /** After a payment its dues are paid exactly if it paid them off. */
  lemma PaidAfterwards(s: State, txn: Id)
    requires Inv(s) && txn in s.transactions
    ensures AllPaid(PaidDues(s, txn), s.transactions[txn]) <==> PaysOff(s, s.transactions[txn])
  {
    hide FreshIds, OccupancyOk, DebtOk, LedgerOk, SettledOk, PendingOk, ReadingsOk, LineTotal, PayLines, LineDues,
         Settles,
         RecordPayment;
    var t := s.transactions[txn];
    assert TransactionOk(s.dues, t);
    if t.dueId.Some? {
      NoLineDues();
      SingleAfterwards(s, t.dueId.value, t.amount);
    } else {
      LinesAfterwards(s, t.lines);
      AllLinesPaid(PayLines(s, s.dues, t.lines), t.lines);
    }
  }

  lemma SingleAfterwards(s: State, dueId: Id, amount: Money)
    requires dueId in s.dues
    ensures var s' := if s.dues[dueId].status == Paid then s else RecordPayment(s, dueId, s.dues[dueId], amount);
            dueId in s'.dues && (s'.dues[dueId].status == Paid <==> Settles(s.dues[dueId], amount))
  {
    PaidByPaying(s.dues[dueId], amount);
  }

  lemma LinesAfterwards(s: State, lines: seq<Line>)
    requires Inv(s) && DistinctDues(lines) && PositiveLines(lines)
    requires forall i :: 0 <= i < |lines| ==> lines[i].dueId in s.dues
    ensures var after := PayLines(s, s.dues, lines);
            forall i :: 0 <= i < |lines| ==>
              && lines[i].dueId in after.dues
              && (after.dues[lines[i].dueId].status == Paid <==> Settles(s.dues[lines[i].dueId], lines[i].amount))
  {
    hide Inv, PayLines, DistinctDues, PositiveLines, Settles, PayInto;
    forall i | 0 <= i < |lines|
      ensures lines[i].dueId in PayLines(s, s.dues, lines).dues
      ensures PayLines(s, s.dues, lines).dues[lines[i].dueId].status == Paid
              <==> Settles(s.dues[lines[i].dueId], lines[i].amount)
    {
      LinePaid(s, lines, i);
      PaidByPaying(s.dues[lines[i].dueId], lines[i].amount);
    }
  }

  /**
   Two deliveries of one success that both saw the transaction INITIATED: the second settles nothing, but it pays again
   exactly if the first did not pay its dues off.
   */
  lemma OverlappingDeliveries(s: State, txn: Id)
    requires Inv(s) && PaysOut(s, txn, true, GatewaySuccess)
    ensures var once := Finish(s, txn);
            && txn in once.transactions
            && var twice := Finish(once, txn);
            && Inv(twice) && twice.settlements == once.settlements && twice.pendingSettlement == once.pendingSettlement
            && (twice.payments == once.payments <==> PaysOff(s, s.transactions[txn]))
  {
    hide Inv, Finish, AllPaid, PaysOff, PaidDues, SetStatus, Settle;
    var once, t := Finish(s, txn), s.transactions[txn];
    LateDelivery(s, txn);
    LateDelivery(once, txn);
    SameDuesLeft(s, txn);
    PaidAfterwards(s, txn);
    PendingOnce(once, txn);
  }

  lemma SameDuesLeft(s: State, txn: Id)
    requires Inv(s) && txn in s.transactions
    ensures txn in Finish(s, txn).transactions
    ensures AllPaid(Finish(s, txn), Finish(s, txn).transactions[txn])
        <==> AllPaid(PaidDues(s, txn), s.transactions[txn])
  {
    hide Inv, Finish, PaidDues, SetStatus, Settle;
    var t := s.transactions[txn];
    if Detached(t) {
      DetachedFinish(s, txn);
      SettleRows(s, txn, t.propertyId, t.amount);
      NoLineDues();
    } else {
      AttachedFinish(s, txn);
      MarkRows(PaidDues(s, txn), txn);
      SettleRows(SetStatus(PaidDues(s, txn), txn, Success), txn, t.propertyId, t.amount);
    }
  }

  lemma PendingOnce(s: State, txn: Id)
    requires Inv(s) && txn in s.transactions && txn in s.settlements
    ensures Finish(s, txn).pendingSettlement == s.pendingSettlement
  {
    hide Inv, Finish, PaidDues, Settle;
    if Detached(s.transactions[txn]) {
      DetachedFinish(s, txn);
    } else {
      AttachedFinish(s, txn);
    }
  }

  /**
   How a payment is made twice: a tenant pays some dues in part, and the success is delivered twice at once. Both
   deliveries see the transaction INITIATED; the second pays again exactly if a line is below its due's balance, though
   the property is credited once.
   */
  lemma PartialPaymentPaysTwice(s: State, tenantId: Id, totalAmount: Money, lines: seq<Line>, propertyId: Id)
    requires Inv(s) && MakePayment(s, tenantId, totalAmount, lines, propertyId).result.Ok?
    ensures var made := MakePayment(s, tenantId, totalAmount, lines, propertyId);
            var txn := made.result.value;
            && PaysOut(made.db, txn, true, GatewaySuccess)
            && var once := HandleWebhook(made.db, txn, true, GatewaySuccess).db;
            && txn in once.transactions
            && var twice := Finish(once, txn);
            && (forall i :: 0 <= i < |lines| ==> lines[i].dueId in s.dues)
            && (twice.payments != once.payments
                <==> exists i :: 0 <= i < |lines| && lines[i].amount < s.dues[lines[i].dueId].balance)
            && twice.settlements == once.settlements && twice.pendingSettlement == once.pendingSettlement
  {
    hide Inv, MakePayment, Finish, HandleWebhook, LineTotal;
    var s1, txn := MakePayment(s, tenantId, totalAmount, lines, propertyId).db,
        MakePayment(s, tenantId, totalAmount, lines, propertyId).result.value;
    Flows.MadeTransaction(s, tenantId, totalAmount, lines, propertyId);
    MakePaymentKeepsInv(s, tenantId, totalAmount, lines, propertyId);
    UninterruptedDelivery(s1, txn, true, GatewaySuccess);
    OverlappingDeliveries(s1, txn);
    PaysOffWholeBalances(s1, s1.transactions[txn]);
  }

  /** Payable lines pay their dues off exactly if each of them is for the whole balance. */
  lemma PaysOffWholeBalances(s: State, t: Transaction)
    requires t.dueId.None? && forall i :: 0 <= i < |t.lines| ==> LinePayable(s, t.lines[i])
    ensures PaysOff(s, t)
            <==> forall i :: 0 <= i < |t.lines| ==>
                   t.lines[i].dueId in s.dues && t.lines[i].amount >= s.dues[t.lines[i].dueId].balance
  {
  }

  // ------------------------------------------------------------------ stale due rows

  /** A payment row, and paid, balance and status of the due as computed from the row that was read before. */
  function WriteLate(s: State, dueId: Id, read: Due, amount: Money): State
    requires dueId in s.dues
  {
    var written := PayInto(read, amount);
    s.(nextId := s.nextId + 1,
       payments := s.payments[s.nextId := PaymentFor(dueId, read, amount)],
       dues := s.dues[dueId := s.dues[dueId].(paid := written.paid, balance := written.balance,
                                              status := written.status)])
  }

  /** On the row that is still there it is the payment of the atomic call. */
  lemma WrittenAtOnce(s: State, dueId: Id, amount: Money)
    requires dueId in s.dues
    ensures WriteLate(s, dueId, s.dues[dueId], amount) == RecordPayment(s, dueId, s.dues[dueId], amount)
  {
  }

  /**
   Written late, whatever has happened to the due since it was read: the ledger stays sound exactly if nothing was paid
   into the due meanwhile and its balance, should it have been edited, leaves the same rest.
   */
  lemma StaleDueRow(s: State, dueId: Id, read: Due, amount: Money)
    requires Inv(s) && dueId in s.dues && amount > 0.0
    ensures var s' := WriteLate(s, dueId, read, amount);
            LedgerOk(s'.dues, s'.payments)
            <==> && read.paid == s.dues[dueId].paid
                 && Max(0.0, read.balance - amount) == Max(0.0, s.dues[dueId].balance - amount)
    ensures read == s.dues[dueId] ==> WriteLate(s, dueId, read, amount) == RecordPayment(s, dueId, read, amount)
  {
    WrittenAtOnce(s, dueId, amount);
    hide PaidInto, FreshIds, OccupancyOk, DebtOk, TransactionsOk, SettledOk, PendingOk, ReadingsOk, DueOk;
    PaymentIdIsFresh(s);
    var s' := WriteLate(s, dueId, read, amount);
    forall d | d in s.dues
      ensures PaidInto(s'.payments, d) == PaidInto(s.payments, d) + (if d == dueId then amount else 0.0)
    {
      PaidIntoAdd(s.payments, s.nextId, PaymentFor(dueId, read, amount), d);
    }
    LateRowOk(s.dues[dueId], read, PaidInto(s.payments, dueId), amount);
  }

  lemma LateRowOk(due: Due, read: Due, paid: Money, amount: Money)
    requires DueOk(due, paid) && amount > 0.0
    ensures var written := PayInto(read, amount);
            DueOk(due.(paid := written.paid, balance := written.balance, status := written.status), paid + amount)
            <==> read.paid == due.paid && Max(0.0, read.balance - amount) == Max(0.0, due.balance - amount)
  {
  }
}
