/**
 Gateway payments: what validation accepts, what a webhook may change, that a transaction settles
 at most once, and where the money of a multi-due payment goes.
 */
module PaymentProofs {
  import opened DueProofs
  import opened DueRules
  import opened Invariants
  import opened Numbers
  import opened PaymentRules
  import opened Sums
  import opened Tables
  import opened Text

  // --------------------------------------------------------------- validation

  /** A repeated due makes the set of dues smaller than the list of lines: the pigeonhole behind the row count. */
  lemma {:induction false} LineDuesCount(lines: seq<Line>)
    ensures |LineDues(lines)| <= |lines|
    ensures |LineDues(lines)| == |lines| <==> DistinctDues(lines)
  {
    if lines == [] {
      assert LineDues(lines) == {};
    } else {
      var front, last := lines[..|lines| - 1], lines[|lines| - 1].dueId;
      LineDuesCount(front);
      assert forall i :: 0 <= i < |lines| - 1 ==> lines[i] == front[i];
      assert LineDues(lines) == LineDues(front) + {last} by {
        forall d
          ensures d in LineDues(lines) <==> d in LineDues(front) + {last}
        {
          if d in LineDues(front) {
            var i :| 0 <= i < |front| && front[i].dueId == d;
            assert lines[i].dueId == d;
          }
          if d in LineDues(lines) && d != last {
            var i :| 0 <= i < |lines| && lines[i].dueId == d;
            assert front[i].dueId == d;
          }
        }
      }
      if last in LineDues(front) {
        assert LineDues(lines) == LineDues(front);
        var i :| 0 <= i < |front| && front[i].dueId == last;
        assert lines[i].dueId == lines[|lines| - 1].dueId;
      } else {
        LastIsNew(lines);
      }
    }
  }

  lemma LastIsNew(lines: seq<Line>)
    requires lines != [] && lines[|lines| - 1].dueId !in LineDues(lines[..|lines| - 1])
    ensures DistinctDues(lines) <==> DistinctDues(lines[..|lines| - 1])
  {
    var front := lines[..|lines| - 1];
    forall i | 0 <= i < |front|
      ensures lines[i].dueId != lines[|lines| - 1].dueId
    {
      assert front[i].dueId in LineDues(front);
    }
  }

  /** Exactly what an accepted payment looks like. */
  ghost predicate SoundPayment(s: State, totalAmount: Money, lines: seq<Line>, tenancyIds: set<Id>, propertyId: Id) {
    && lines != []
    && AmountsDeclared(totalAmount, lines)
    && DistinctDues(lines)
    && forall i :: 0 <= i < |lines| ==>
        && LinePayable(s, lines[i])
        && s.dues[lines[i].dueId].tenancyId in tenancyIds
        && s.dues[lines[i].dueId].propertyId == propertyId
  }

  lemma FetchedIsAll(s: State, lines: seq<Line>, tenancyIds: set<Id>)
    ensures |FetchedDues(s, lines, tenancyIds)| == |lines|
            <==> DistinctDues(lines) && FetchedDues(s, lines, tenancyIds) == LineDues(lines)
  {
    var fetched, all := FetchedDues(s, lines, tenancyIds), LineDues(lines);
    LineDuesCount(lines);
    assert fetched <= all;
    SubsetSize(fetched, all);
  }

  lemma {:induction false} SubsetSize(a: set<Id>, b: set<Id>)
    requires a <= b
    ensures |a| <= |b| && (|a| == |b| ==> a == b)
  {
    var rest := b - a;
    assert b == a + rest;
    assert |b| == |a| + |rest|;
  }

  lemma SameProperty(s: State, lines: seq<Line>, tenancyIds: set<Id>, propertyId: Id)
    requires lines != [] && FetchedDues(s, lines, tenancyIds) == LineDues(lines)
    ensures PropertiesOf(s, FetchedDues(s, lines, tenancyIds)) == {propertyId}
            <==> forall i :: 0 <= i < |lines| ==>
                  lines[i].dueId in s.dues && s.dues[lines[i].dueId].propertyId == propertyId
  {
    var fetched := FetchedDues(s, lines, tenancyIds);
    forall i | 0 <= i < |lines|
      ensures lines[i].dueId in fetched && s.dues[lines[i].dueId].propertyId in PropertiesOf(s, fetched)
    {
      assert lines[i].dueId in LineDues(lines);
      assert lines[i].dueId in fetched;
    }
    assert lines[0].dueId in fetched;
    if forall i :: 0 <= i < |lines| ==> lines[i].dueId in s.dues && s.dues[lines[i].dueId].propertyId == propertyId {
      forall p
        ensures p in PropertiesOf(s, fetched) <==> p == propertyId
      {
      }
    }
  }

  lemma LinesFetched(s: State, lines: seq<Line>, tenancyIds: set<Id>)
    ensures FetchedDues(s, lines, tenancyIds) == LineDues(lines)
            <==> forall i :: 0 <= i < |lines| ==>
                  lines[i].dueId in s.dues && s.dues[lines[i].dueId].tenancyId in tenancyIds
  {
    var fetched, all := FetchedDues(s, lines, tenancyIds), LineDues(lines);
    if fetched == all {
      forall i | 0 <= i < |lines|
        ensures lines[i].dueId in s.dues && s.dues[lines[i].dueId].tenancyId in tenancyIds
      {
        assert lines[i].dueId in all;
        assert lines[i].dueId in fetched;
      }
    }
    if forall i :: 0 <= i < |lines| ==> lines[i].dueId in s.dues && s.dues[lines[i].dueId].tenancyId in tenancyIds {
      forall d
        ensures d in fetched <==> d in all
      {
      }
    }
  }

  /**
   The row-count check is the distinctness check: validation accepts a payment exactly when its lines name
   pairwise distinct payable dues of the tenant in one property, with non-zero amounts that add up to the total.
   */
  lemma AcceptsIsSound(s: State, totalAmount: Money, lines: seq<Line>, tenancyIds: set<Id>, propertyId: Id)
    ensures Accepts(s, totalAmount, lines, tenancyIds, propertyId)
            <==> SoundPayment(s, totalAmount, lines, tenancyIds, propertyId)
  {
    hide LineTotal, DistinctDues, PropertiesOf, FetchedDues, LineDues;
    FetchedIsAll(s, lines, tenancyIds);
    LinesFetched(s, lines, tenancyIds);
    if lines != [] && FetchedDues(s, lines, tenancyIds) == LineDues(lines) {
      SameProperty(s, lines, tenancyIds, propertyId);
    }
  }

  /** The tenant may pay the due: it is owed by a tenancy of the tenant that is active, on notice or pending. */
  predicate MayPay(s: State, tenantId: Id, dueId: Id) {
    && dueId in s.dues && s.dues[dueId].tenancyId in s.tenancies
    && var t := s.tenancies[s.dues[dueId].tenancyId];
    && t.tenantId == tenantId && t.deletedAt.None?
    && (t.status == Active || t.status == NoticePeriod || t.status == Pending)
  }

  /** The line takes a positive whole number of rupees, and no more than what is owed, from a due of the property. */
  predicate FairLine(s: State, line: Line, propertyId: Id) {
    && line.dueId in s.dues && s.dues[line.dueId].propertyId == propertyId
    && s.dues[line.dueId].status != Paid && s.dues[line.dueId].status != Waived
    && 0.0 < line.amount <= s.dues[line.dueId].balance && Whole(line.amount)
  }

  /** A payment of different dues that the tenant may pay, all of one property that has a gateway. */
  ghost predicate FairPayment(s: State, tenantId: Id, totalAmount: Money, lines: seq<Line>, propertyId: Id) {
    && lines != [] && propertyId in s.gateways && totalAmount == LineTotal(lines)
    && (forall i, j :: 0 <= i < j < |lines| ==> lines[i].dueId != lines[j].dueId)
    && forall i :: 0 <= i < |lines| ==> MayPay(s, tenantId, lines[i].dueId) && FairLine(s, lines[i], propertyId)
  }

  /** A payment is accepted exactly if it is a fair payment of the tenant's own dues. */
  lemma PaymentAcceptedExactly(s: State, tenantId: Id, totalAmount: Money, lines: seq<Line>, propertyId: Id)
    ensures PaymentAccepted(s, tenantId, totalAmount, lines, propertyId)
        <==> FairPayment(s, tenantId, totalAmount, lines, propertyId)
  {
    hide Accepts, LineTotal;
    AcceptsIsSound(s, totalAmount, lines, PayableTenancies(s, tenantId), propertyId);
    if SoundPayment(s, totalAmount, lines, PayableTenancies(s, tenantId), propertyId) {
      forall i | 0 <= i < |lines|
        ensures MayPay(s, tenantId, lines[i].dueId)
      {
        assert s.dues[lines[i].dueId].tenancyId in PayableTenancies(s, tenantId);
      }
    }
  }

  // --------------------------------------------------------------- initiation

  lemma NewTransactionKeeps(s: State, dueId: Option<Id>, lines: seq<Line>, propertyId: Id, amount: Money)
    requires Inv(s)
    requires TransactionOk(s.dues, Transaction(dueId, lines, propertyId, amount, Initiated))
    ensures Inv(NewTransaction(s, dueId, lines, propertyId, amount))
  {
    hide TransactionOk, DebtOk, LedgerOk, PendingOk, OccupancyOk, ReadingsOk;
    var s' := NewTransaction(s, dueId, lines, propertyId, amount);
    assert s.nextId !in s.transactions;
    assert ReadingsOk(s') by { ReadingsKept(s, s'); }
  }

  lemma InitiatePaymentKeepsInv(s: State, dueId: Id, tenantId: Id)
    requires Inv(s)
    ensures Inv(InitiatePayment(s, dueId, tenantId).db)
  {
    hide Inv, NewTransaction;
    if InitiatePayment(s, dueId, tenantId).result.Ok? {
      NewTransactionKeeps(s, Some(dueId), [], s.dues[dueId].propertyId, s.dues[dueId].balance);
    }
  }

  lemma MakePaymentKeepsInv(s: State, tenantId: Id, totalAmount: Money, lines: seq<Line>, propertyId: Id)
    requires Inv(s)
    ensures Inv(MakePayment(s, tenantId, totalAmount, lines, propertyId).db)
  {
    hide Inv, NewTransaction, Accepts;
    if PaymentAccepted(s, tenantId, totalAmount, lines, propertyId) {
      AcceptsIsSound(s, totalAmount, lines, PayableTenancies(s, tenantId), propertyId);
      PositiveTotal(lines);
      NewTransactionKeeps(s, None, lines, propertyId, totalAmount);
    }
  }

  lemma {:induction false} PositiveTotal(lines: seq<Line>)
    requires PositiveLines(lines) && lines != []
    ensures LineTotal(lines) > 0.0
  {
    var front := lines[..|lines| - 1];
    if front != [] {
      PositiveTotal(front);
    } else {
      assert LineTotal(front) == 0.0;
    }
  }

  // ----------------------------------------------------------------- the lines

  /** Until its own line is reached, a due is as it was read. */
  lemma {:induction false} UntouchedByLines(s: State, read: Dues, lines: seq<Line>, d: Id)
    requires forall i :: 0 <= i < |lines| ==> lines[i].dueId != d
    ensures d in PayLines(s, read, lines).dues <==> d in s.dues
    ensures d in s.dues ==> PayLines(s, read, lines).dues[d] == s.dues[d]
  {
    if lines != [] {
      UntouchedByLines(s, read, lines[..|lines| - 1], d);
    }
  }

  lemma {:induction false} PayLinesKeeps(s: State, lines: seq<Line>)
    requires Inv(s) && DistinctDues(lines) && PositiveLines(lines)
    requires forall i :: 0 <= i < |lines| ==> lines[i].dueId in s.dues
    ensures Inv(PayLines(s, s.dues, lines))
    ensures PayLines(s, s.dues, lines).dues.Keys == s.dues.Keys
    decreases |lines|
  {
    hide Inv, RecordPayment;
    if lines != [] {
      var front, line := lines[..|lines| - 1], lines[|lines| - 1];
      PayLinesKeeps(s, front);
      UntouchedByLines(s, s.dues, front, line.dueId);
      var before := PayLines(s, s.dues, front);
      if s.dues[line.dueId].status != Paid {
        RecordPaymentKeeps(before, line.dueId, line.amount);
        RecordPaymentKeys(before, line.dueId, s.dues[line.dueId], line.amount);
      }
    }
  }

  lemma RecordPaymentKeys(s: State, dueId: Id, due: Due, amount: Money)
    requires dueId in s.dues
    ensures RecordPayment(s, dueId, due, amount).dues.Keys == s.dues.Keys
  {
  }

  // ------------------------------------------------------------------ webhook

  /** A delivery that gets as far as paying: known, not yet decided, configured, authentic and successful. */
  predicate PaysOut(s: State, txn: Id, hashValid: bool, status: GatewayStatus) {
    && txn in s.transactions && s.transactions[txn].status == Initiated
    && s.transactions[txn].propertyId in s.gateways && hashValid && status == GatewaySuccess
  }

  /** The payment part of a successful delivery, before the transaction is marked. */
  function PaidDues(s: State, txn: Id): (s': State)
    requires txn in s.transactions
    ensures s' == s.(nextId := s'.nextId, dues := s'.dues, payments := s'.payments)
  {
    var t := s.transactions[txn];
    PayLinesFrame(s, s.dues, t.lines);
    if t.dueId.Some? then
      if t.dueId.value !in s.dues || s.dues[t.dueId.value].status == Paid then s
      else RecordPayment(s, t.dueId.value, s.dues[t.dueId.value], t.amount)
    else PayLines(s, s.dues, t.lines)
  }

  lemma PaidDuesKeeps(s: State, txn: Id)
    requires Inv(s) && txn in s.transactions
    ensures Inv(PaidDues(s, txn))
  {
    hide FreshIds, OccupancyOk, DebtOk, LedgerOk, SettledOk, PendingOk, ReadingsOk, LineTotal;
    var t := s.transactions[txn];
    assert TransactionOk(s.dues, t);
    if t.dueId.Some? {
      if s.dues[t.dueId.value].status != Paid {
        RecordPaymentKeeps(s, t.dueId.value, t.amount);
      }
    } else {
      PayLinesKeeps(s, t.lines);
    }
  }

  /** Paying out is: pay the dues, and mark the transaction unless its due was deleted. */
  lemma ProcessedIs(s: State, txn: Id)
    requires Inv(s) && txn in s.transactions
    ensures ProcessSuccessfulPayment(s, txn)
            == if Detached(s.transactions[txn]) then s else SetStatus(PaidDues(s, txn), txn, Success)
  {
    hide FreshIds, OccupancyOk, DebtOk, LedgerOk, SettledOk, PendingOk, ReadingsOk, LineTotal;
    var t := s.transactions[txn];
    assert TransactionOk(s.dues, t);
    PaidDuesKeeps(s, txn);
  }

  lemma SetStatusKeeps(s: State, txn: Id, status: TransactionStatus)
    requires Inv(s) && txn in s.transactions && s.transactions[txn].status == Initiated
    requires status == Failed || status == Cancelled
    ensures Inv(SetStatus(s, txn, status))
  {
    hide OccupancyOk, DebtOk, LedgerOk, PendingOk, ReadingsOk;
    var s' := SetStatus(s, txn, status);
    assert ReadingsOk(s') by { ReadingsKept(s, s'); }
  }

  lemma PendingAfterSettling(settlements: Settlements, pending: map<Id, Money>, txn: Id, propertyId: Id, amount: Money)
    requires PendingOk(settlements, pending) && txn !in settlements
    ensures PendingOk(settlements[txn := Settlement(propertyId, amount)],
                      pending[propertyId := PendingOf(pending, propertyId) + amount])
  {
    hide Total;
    var after := settlements[txn := Settlement(propertyId, amount)];
    forall p: Id
      ensures Total(GrossOf(after, p)) == Total(GrossOf(settlements, p)) + (if p == propertyId then amount else 0.0)
    {
      if p == propertyId {
        TotalInsert(GrossOf(settlements, p), txn, amount);
        assert GrossOf(after, p) == GrossOf(settlements, p)[txn := amount];
      } else {
        assert GrossOf(after, p) == GrossOf(settlements, p);
      }
    }
  }

  lemma SettledAfterSuccess(transactions: Transactions, settlements: Settlements, txn: Id)
    requires SettledOk(transactions, settlements) && txn in transactions
    ensures var t := transactions[txn];
            var settled := settlements[txn := Settlement(t.propertyId, t.amount)];
            && SettledOk(transactions[txn := t.(status := Success)], settled)
            && (Detached(t) ==> SettledOk(transactions, settled))
  {
  }

  lemma MarkedTransactions(transactions: Transactions, dues: Dues, txn: Id, status: TransactionStatus)
    requires TransactionsOk(transactions, dues) && txn in transactions
    ensures TransactionsOk(transactions[txn := transactions[txn].(status := status)], dues)
  {
    hide LineTotal, DistinctDues, PositiveLines;
    assert TransactionOk(dues, transactions[txn]);
  }

  /** Settling a detached transaction, or marking an attached one as paid and settling it. */
  lemma SettleKeeps(s: State, txn: Id, attached: bool)
    requires Inv(s) && txn in s.transactions && txn !in s.settlements
    requires attached || Detached(s.transactions[txn])
    ensures var t := s.transactions[txn];
            Inv(Settle(if attached then SetStatus(s, txn, Success) else s, txn, t.propertyId, t.amount))
  {
    hide OccupancyOk, DebtOk, LedgerOk, PendingOk, ReadingsOk, TransactionsOk, SettledOk;
    var t := s.transactions[txn];
    PendingAfterSettling(s.settlements, s.pendingSettlement, txn, t.propertyId, t.amount);
    SettledAfterSuccess(s.transactions, s.settlements, txn);
    MarkedTransactions(s.transactions, s.dues, txn, Success);
    ReadingsKept(s, Settle(if attached then SetStatus(s, txn, Success) else s, txn, t.propertyId, t.amount));
  }

  lemma HandleWebhookKeepsInv(s: State, txn: Id, hashValid: bool, status: GatewayStatus)
    requires Inv(s)
    ensures Inv(HandleWebhook(s, txn, hashValid, status).db)
  {
    hide Inv, PaidDues, SetStatus, Settle, ProcessSuccessfulPayment;
    if txn in s.transactions && s.transactions[txn].status == Initiated
        && s.transactions[txn].propertyId in s.gateways {
      if PaysOut(s, txn, hashValid, status) {
        WebhookPays(s, txn, hashValid, status);
      } else if !hashValid {
        SetStatusKeeps(s, txn, Failed);
      } else {
        SetStatusKeeps(s, txn, if status == UserCancelled then Cancelled else Failed);
      }
    }
  }

  /** A successful delivery, in full: pay, mark, settle. */
  lemma WebhookPays(s: State, txn: Id, hashValid: bool, status: GatewayStatus)
    requires Inv(s) && PaysOut(s, txn, hashValid, status)
    ensures Inv(HandleWebhook(s, txn, hashValid, status).db)
    ensures var t := s.transactions[txn];
            !Detached(t) ==> txn !in s.settlements
                             && HandleWebhook(s, txn, hashValid, status)
                                == Reply(Settle(SetStatus(PaidDues(s, txn), txn, Success), txn, t.propertyId, t.amount),
                                         Ok(Answered(Success, true)))
  {
    hide FreshIds, OccupancyOk, DebtOk, LedgerOk, PendingOk, ReadingsOk, TransactionsOk, PaidDues;
    var t := s.transactions[txn];
    ProcessedIs(s, txn);
    if Detached(t) {
      if txn !in s.settlements {
        SettleKeeps(s, txn, false);
      }
    } else {
      PaidDuesKeeps(s, txn);
      SettleKeeps(PaidDues(s, txn), txn, true);
    }
  }

  // ------------------------------------------------ what a delivery may touch

  lemma UnknownDelivery(s: State, txn: Id, hashValid: bool, status: GatewayStatus)
    requires txn !in s.transactions
    ensures HandleWebhook(s, txn, hashValid, status).db == s
  {
  }

  /** A delivery that pays nothing out marks at most its transaction. */
  lemma MarkedOnly(s: State, txn: Id, hashValid: bool, status: GatewayStatus)
    requires txn in s.transactions && !PaysOut(s, txn, hashValid, status)
    ensures HandleWebhook(s, txn, hashValid, status).db
            == s.(transactions := HandleWebhook(s, txn, hashValid, status).db.transactions)
  {
    hide ProcessSuccessfulPayment, Settle;
  }

  /** Paying out a transaction whose due was deleted only settles. */
  lemma DetachedPayout(s: State, txn: Id, hashValid: bool, status: GatewayStatus)
    requires Inv(s) && PaysOut(s, txn, hashValid, status) && Detached(s.transactions[txn])
    ensures var s' := HandleWebhook(s, txn, hashValid, status).db;
            s' == s.(settlements := s'.settlements, pendingSettlement := s'.pendingSettlement)
  {
    hide Inv, ProcessSuccessfulPayment;
    ProcessedIs(s, txn);
  }

  /** A delivery touches no room, tenancy, reading or billing run. */
  lemma WebhookFrame(s: State, txn: Id, hashValid: bool, status: GatewayStatus)
    requires Inv(s)
    ensures var s' := HandleWebhook(s, txn, hashValid, status).db;
            && s'.rooms == s.rooms && s'.tenancies == s.tenancies && s'.owners == s.owners
            && s'.runs == s.runs && s'.mainReadings == s.mainReadings && s'.roomReadings == s.roomReadings
  {
    hide Inv, HandleWebhook, PaysOut, PaidDues, Settle, SetStatus;
    if PaysOut(s, txn, hashValid, status) {
      assert txn in s.transactions by { PayoutKnown(s, txn, hashValid, status); }
      var t := s.transactions[txn];
      if Detached(t) {
        DetachedPayout(s, txn, hashValid, status);
      } else {
        WebhookPays(s, txn, hashValid, status);
        PaidElsewhere(s, txn);
        SettledElsewhere(PaidDues(s, txn), txn, t.propertyId, t.amount);
      }
    } else if txn in s.transactions {
      MarkedOnly(s, txn, hashValid, status);
    } else {
      UnknownDelivery(s, txn, hashValid, status);
    }
  }

  lemma PaidElsewhere(s: State, txn: Id)
    requires txn in s.transactions
    ensures var s' := PaidDues(s, txn);
            && s'.transactions == s.transactions
            && s'.rooms == s.rooms && s'.tenancies == s.tenancies && s'.owners == s.owners
            && s'.runs == s.runs && s'.mainReadings == s.mainReadings && s'.roomReadings == s.roomReadings
  {
    hide PayLines, PayInto;
  }

  lemma SettledElsewhere(s: State, txn: Id, propertyId: Id, amount: Money)
    requires txn in s.transactions
    ensures var s' := Settle(SetStatus(s, txn, Success), txn, propertyId, amount);
            && s'.rooms == s.rooms && s'.tenancies == s.tenancies && s'.owners == s.owners
            && s'.runs == s.runs && s'.mainReadings == s.mainReadings && s'.roomReadings == s.roomReadings
  {
  }

  lemma PayoutKnown(s: State, txn: Id, hashValid: bool, status: GatewayStatus)
    requires PaysOut(s, txn, hashValid, status)
    ensures txn in s.transactions
  {
  }

  // --------------------------------------------------------------- at most once

  /** Nothing decided is decided again: s' keeps every transaction, and those not pending keep their outcome. */
  ghost predicate TransactionsProgress(s: State, s': State) {
    forall t :: t in s.transactions ==>
      && t in s'.transactions
      && s'.transactions[t].propertyId == s.transactions[t].propertyId
      && s'.transactions[t].amount == s.transactions[t].amount
      && (s.transactions[t].status != Initiated ==> s'.transactions[t].status == s.transactions[t].status)
  }

  /** The status that a delivery leaves its transaction in. */
  function Outcome(s: State, txn: Id, hashValid: bool, status: GatewayStatus): TransactionStatus
    requires txn in s.transactions
  {
    var t := s.transactions[txn];
    if t.status != Initiated || t.propertyId !in s.gateways then t.status
    else if !hashValid then Failed
    else if status == GatewaySuccess then (if Detached(t) then Initiated else Success)
    else if status == UserCancelled then Cancelled
    else Failed
  }

  lemma WebhookSetsOutcome(s: State, txn: Id, hashValid: bool, status: GatewayStatus)
    requires Inv(s) && txn in s.transactions
    ensures HandleWebhook(s, txn, hashValid, status).db.transactions
            == s.transactions[txn := s.transactions[txn].(status := Outcome(s, txn, hashValid, status))]
  {
    hide Inv, HandleWebhook, SetStatus, Settle;
    if PaysOut(s, txn, hashValid, status) {
      PayoutTransactions(s, txn, hashValid, status);
      MarkedBySetStatus(PaidDues(s, txn), txn, Success);
      ProcessedIs(s, txn);
    } else {
      OtherDeliveries(s, txn, hashValid, status);
    }
    MapSame(s.transactions, txn);
  }

  lemma MapSame(transactions: Transactions, txn: Id)
    requires txn in transactions
    ensures transactions[txn := transactions[txn].(status := transactions[txn].status)] == transactions
  {
  }

  lemma MarkedBySetStatus(s: State, txn: Id, status: TransactionStatus)
    requires txn in s.transactions
    ensures SetStatus(s, txn, status).transactions == s.transactions[txn := s.transactions[txn].(status := status)]
  {
  }

  lemma PayoutTransactions(s: State, txn: Id, hashValid: bool, status: GatewayStatus)
    requires PaysOut(s, txn, hashValid, status)
    ensures HandleWebhook(s, txn, hashValid, status).db.transactions == ProcessSuccessfulPayment(s, txn).transactions
  {
    hide ProcessSuccessfulPayment;
  }

  lemma OtherDeliveries(s: State, txn: Id, hashValid: bool, status: GatewayStatus)
    requires txn in s.transactions && !PaysOut(s, txn, hashValid, status)
    ensures HandleWebhook(s, txn, hashValid, status).db.transactions
            == s.transactions[txn := s.transactions[txn].(status := Outcome(s, txn, hashValid, status))]
  {
    hide ProcessSuccessfulPayment, Settle;
    MapSame(s.transactions, txn);
  }

  /** A delivery decides at most its own transaction, and only if that was undecided. */
  lemma WebhookDecidesOnce(s: State, txn: Id, hashValid: bool, status: GatewayStatus)
    requires Inv(s)
    ensures TransactionsProgress(s, HandleWebhook(s, txn, hashValid, status).db)
    ensures forall t :: t in s.transactions && t != txn ==>
              var s' := HandleWebhook(s, txn, hashValid, status).db;
              t in s'.transactions && s'.transactions[t] == s.transactions[t]
  {
    hide Inv;
    if txn in s.transactions {
      hide HandleWebhook;
      WebhookSetsOutcome(s, txn, hashValid, status);
    }
  }

  /**
   A second delivery for a decided transaction changes nothing at all, whatever it claims; and a verified
   success decides the transaction unless its due was deleted in the meantime.
   */
  lemma WebhookAtMostOnce(s: State, txn: Id, hashValid: bool, status: GatewayStatus)
    requires Inv(s) && txn in s.transactions
    ensures s.transactions[txn].status != Initiated ==> HandleWebhook(s, txn, hashValid, status).db == s
    ensures txn in HandleWebhook(s, txn, hashValid, status).db.transactions
    ensures PaysOut(s, txn, hashValid, status) ==>
              (HandleWebhook(s, txn, hashValid, status).db.transactions[txn].status == Success
               <==> !Detached(s.transactions[txn]))
  {
    hide Inv, ProcessSuccessfulPayment;
    WebhookSetsOutcome(s, txn, hashValid, status);
  }

  /**
   A settlement row exists exactly for the successful transactions, as far as their dues still exist. A verified
   success for a transaction whose due was deleted leaves it INITIATED but settled.
   */
  lemma SettledExactlyOnSuccess(s: State, txn: Id)
    requires Inv(s) && txn in s.transactions && !Detached(s.transactions[txn])
    ensures txn in s.settlements <==> s.transactions[txn].status == Success
  {
  }

  lemma DetachedSettlesWithoutSuccess(s: State, txn: Id)
    requires Inv(s) && PaysOut(s, txn, true, GatewaySuccess) && Detached(s.transactions[txn])
    ensures var s' := HandleWebhook(s, txn, true, GatewaySuccess).db;
            txn in s'.settlements && txn in s'.transactions && s'.transactions[txn].status == Initiated
  {
    hide Inv;
    ProcessedIs(s, txn);
  }

  // ------------------------------------------------------ multi-due conservation

  function AmountsPaid(payments: Payments): map<Id, Money> {
    map p | p in payments :: payments[p].amount
  }

  /** The lines that a delivery finds already paid. */
  function SkippedTotal(dues: Dues, lines: seq<Line>): Money {
    if lines == [] then 0.0
    else
      var before, line := SkippedTotal(dues, lines[..|lines| - 1]), lines[|lines| - 1];
      if line.dueId !in dues || dues[line.dueId].status == Paid then before + line.amount else before
  }

  lemma {:induction false} PayLinesConserves(s: State, lines: seq<Line>)
    requires Inv(s) && DistinctDues(lines) && PositiveLines(lines)
    requires forall i :: 0 <= i < |lines| ==> lines[i].dueId in s.dues
    ensures Total(AmountsPaid(PayLines(s, s.dues, lines).payments)) + SkippedTotal(s.dues, lines)
            == Total(AmountsPaid(s.payments)) + LineTotal(lines)
    decreases |lines|
  {
    hide Inv, Total;
    if lines != [] {
      var front, line := lines[..|lines| - 1], lines[|lines| - 1];
      PayLinesConserves(s, front);
      PayLinesKeeps(s, front);
      var before := PayLines(s, s.dues, front);
      if s.dues[line.dueId].status != Paid {
        PaymentIdIsFresh(before);
        TotalInsert(AmountsPaid(before.payments), before.nextId, line.amount);
        assert AmountsPaid(PayLines(s, s.dues, lines).payments)
            == AmountsPaid(before.payments)[before.nextId := line.amount];
      }
    }
  }

  /**
   The money of a multi-due payment: on success the new payments plus the lines skipped as already paid
   add up to the transaction's amount.
   */
  lemma MultiDueConservation(s: State, txn: Id, hashValid: bool, status: GatewayStatus)
    requires Inv(s) && PaysOut(s, txn, hashValid, status)
    requires s.transactions[txn].lines != []
    ensures var s' := HandleWebhook(s, txn, hashValid, status).db;
            Total(AmountsPaid(s'.payments)) - Total(AmountsPaid(s.payments))
            + SkippedTotal(s.dues, s.transactions[txn].lines)
            == s.transactions[txn].amount
  {
    hide FreshIds, OccupancyOk, DebtOk, LedgerOk, SettledOk, PendingOk, ReadingsOk, Total, AmountsPaid, LineTotal,
         SkippedTotal, PayLines;
    var t := s.transactions[txn];
    assert TransactionOk(s.dues, t);
    WebhookPays(s, txn, hashValid, status);
    PayLinesConserves(s, t.lines);
  }

  /** What paying the lines does to the due of one of them. */
  lemma {:induction false} LinePaid(s: State, lines: seq<Line>, k: nat)
    requires Inv(s) && DistinctDues(lines) && PositiveLines(lines)
    requires forall i :: 0 <= i < |lines| ==> lines[i].dueId in s.dues
    requires k < |lines|
    ensures lines[k].dueId in PayLines(s, s.dues, lines).dues
    ensures PayLines(s, s.dues, lines).dues[lines[k].dueId]
            == if s.dues[lines[k].dueId].status == Paid then s.dues[lines[k].dueId]
               else PayInto(s.dues[lines[k].dueId], lines[k].amount)
    decreases |lines|
  {
    hide Inv, PayInto;
    var front, line := lines[..|lines| - 1], lines[|lines| - 1];
    if k == |front| {
      UntouchedByLines(s, s.dues, front, line.dueId);
    } else {
      assert front[k] == lines[k];
      LinePaid(s, front, k);
    }
  }

  /**
   If nothing was collected since the payment was accepted, every line takes exactly its amount from its due's
   balance and nothing is overpaid; dues outside the payment stay as they were.
   */
  lemma UnchangedBalancesDropExactly(s: State, txn: Id, k: nat)
    requires Inv(s) && PaysOut(s, txn, true, GatewaySuccess)
    requires var t := s.transactions[txn];
             k < |t.lines| && forall i :: 0 <= i < |t.lines| ==> LinePayable(s, t.lines[i])
    ensures var line := s.transactions[txn].lines[k];
            var s' := HandleWebhook(s, txn, true, GatewaySuccess).db;
            && line.dueId in s.dues && line.dueId in s'.dues
            && var due, due' := s.dues[line.dueId], s'.dues[line.dueId];
            && due'.balance == due.balance - line.amount
            && due'.paid == due.paid + line.amount <= due'.total == due.total
    ensures var s' := HandleWebhook(s, txn, true, GatewaySuccess).db;
            forall d :: d in s.dues && !HasLine(s.transactions[txn], d) ==> d in s'.dues && s'.dues[d] == s.dues[d]
  {
    hide FreshIds, OccupancyOk, DebtOk, SettledOk, PendingOk, ReadingsOk, PaidInto, LineTotal, PayLines;
    var t := s.transactions[txn];
    assert TransactionOk(s.dues, t);
    WebhookPays(s, txn, true, GatewaySuccess);
    LinePaid(s, t.lines, k);
    assert LinePayable(s, t.lines[k]);
    assert DueOk(s.dues[t.lines[k].dueId], PaidInto(s.payments, t.lines[k].dueId));
    forall d | d in s.dues && !HasLine(t, d)
      ensures d in PayLines(s, s.dues, t.lines).dues && PayLines(s, s.dues, t.lines).dues[d] == s.dues[d]
    {
      UntouchedByLines(s, s.dues, t.lines, d);
    }
  }
}
