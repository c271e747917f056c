/** The payment services, statement by statement: validation loops, initiation, webhook and settlement. */
module PaymentService {
  import opened DueRules
  import Flows
  import opened Invariants
  import opened Numbers
  import opened PaymentLock
  import opened PaymentProofs
  import opened PaymentRules
  import opened Proration
  import opened Queries
  import opened Sums
  import opened Tables
  import opened Text

  // ------------------------------------------------------------------ validation

  /** Rounding a sum of whole rupees to paise changes nothing. */
  lemma RoundPaiseOfWhole(x: real)
    requires Whole(x)
    ensures RoundPaise(x) == x
  {
    var w := x.Floor * 100;
    assert x * 100.0 == w as real;
    assert w as real - 0.5 <= Round(x * 100.0) as real <= w as real + 0.5;
    assert Round(x * 100.0) == w;
  }

  /** Every amount is non-zero and the declared total is their sum, which is rounded to paise after each addition. */
  method CheckAmounts(totalAmount: Money, lines: seq<Line>) returns (ok: bool)
    requires WholeLines(lines)
    ensures ok <==> && lines != [] && (forall i :: 0 <= i < |lines| ==> lines[i].amount != 0.0)
                    && totalAmount == LineTotal(lines)
  {
    if |lines| == 0 {
      return false;
    }
    if |lines| == 1 {
      assert LineTotal(lines) == LineTotal(lines[..0]) + lines[0].amount;
      return lines[0].amount != 0.0 && totalAmount == lines[0].amount;
    }
    var sumOfAmounts := 0.0;
    for i := 0 to |lines|
      invariant forall j :: 0 <= j < i ==> lines[j].amount != 0.0
      invariant sumOfAmounts == LineTotal(lines[..i]) && Whole(sumOfAmounts)
    {
      if lines[i].amount == 0.0 {
        return false;
      }
      assert lines[..i + 1][..i] == lines[..i];
      var sum := sumOfAmounts + lines[i].amount;
      assert sum == (sumOfAmounts.Floor + lines[i].amount.Floor) as real;
      RoundPaiseOfWhole(sum);
      sumOfAmounts := RoundPaise(sum);
    }
    assert lines[..|lines|] == lines;
    return totalAmount == sumOfAmounts;
  }

  /** Every due is still owed and no line exceeds its balance. */
  method CheckBalances(db: Database, lines: seq<Line>) returns (ok: bool)
    requires forall i :: 0 <= i < |lines| ==> lines[i].dueId in db.dues
    ensures ok <==> forall i :: 0 <= i < |lines| ==> LinePayable(db.Snapshot(), lines[i])
  {
    for i := 0 to |lines|
      invariant forall j :: 0 <= j < i ==> LinePayable(db.Snapshot(), lines[j])
    {
      var due := db.dues[lines[i].dueId];
      if due.status == Paid || due.status == Waived || lines[i].amount > due.balance {
        assert !LinePayable(db.Snapshot(), lines[i]);
        return false;
      }
    }
    return true;
  }

  /** Answers the property whose dues the payment is for. */
  method ValidateDueAndAmount(db: Database, totalAmount: Money, lines: seq<Line>,
          tenancyIds: set<Id>) returns (r: Result<Id>)
    requires WholeLines(lines)
    ensures r.Ok? ==> SoundPayment(db.Snapshot(), totalAmount, lines, tenancyIds, r.value)
    ensures r.Err? ==> forall p :: !SoundPayment(db.Snapshot(), totalAmount, lines, tenancyIds, p)
  {
    hide FetchedDues, PropertiesOf, AmountsDeclared, LinePayable, SoundPayment, WholeLines, LineTotal;
    Declared(totalAmount, lines);
    var s := db.Snapshot();
    forall p {
      AcceptsIsSound(s, totalAmount, lines, tenancyIds, p);
    }
    var amountsOk := CheckAmounts(totalAmount, lines);
    if !amountsOk {
      return Err(BadRequest);
    }
    var fetchedIds := FetchedDues(s, lines, tenancyIds);
    var fetchedDues := FindMany(fetchedIds);
    if |fetchedDues| != |lines| {
      return Err(BadRequest);
    }
    AllFetched(s, lines, tenancyIds);
    var propertyIds := PropertiesOf(s, fetchedIds);
    if |propertyIds| > 1 {
      return Err(BadRequest);
    }
    assert fetchedDues[0] in fetchedIds;
    PropertyIsListed(s, fetchedIds, fetchedDues[0]);
    var first := db.dues[fetchedDues[0]].propertyId;
    OneElement(propertyIds, first);
    var balancesOk := CheckBalances(db, lines);
    return if balancesOk then Ok(first) else Err(BadRequest);
  }

  lemma Declared(totalAmount: Money, lines: seq<Line>)
    ensures AmountsDeclared(totalAmount, lines)
        <==> (forall i :: 0 <= i < |lines| ==> lines[i].amount != 0.0) && totalAmount == LineTotal(lines)
  {
  }

  lemma AllFetched(s: State, lines: seq<Line>, tenancyIds: set<Id>)
    requires |FetchedDues(s, lines, tenancyIds)| == |lines|
    ensures forall i :: 0 <= i < |lines| ==> lines[i].dueId in s.dues
    ensures forall d :: d in FetchedDues(s, lines, tenancyIds) ==> d in s.dues
  {
    FetchedIsAll(s, lines, tenancyIds);
    LinesFetched(s, lines, tenancyIds);
  }

  lemma PropertyIsListed(s: State, ids: set<Id>, d: Id)
    requires d in ids && forall i :: i in ids ==> i in s.dues
    ensures s.dues[d].propertyId in PropertiesOf(s, ids)
  {
  }

  lemma OneElement(ids: set<Id>, id: Id)
    requires |ids| <= 1 && id in ids
    ensures ids == {id}
  {
    assert |ids - {id}| == 0;
  }

  // ------------------------------------------------------------------ initiation

  method CreateTransaction(db: Database, dueId: Option<Id>, propertyId: Id, amount: Money) returns (id: Id)
    modifies db`nextId, db`transactions
    ensures id == old(db.nextId)
    ensures db.Snapshot() == NewTransaction(old(db.Snapshot()), dueId, [], propertyId, amount)
  {
    id := db.nextId;
    db.nextId := id + 1;
    db.transactions := db.transactions[id := Transaction(dueId, [], propertyId, amount, Initiated)];
  }

  /** The due belongs to the tenant. */
  predicate Owes(s: State, tenantId: Id, dueId: Id) {
    dueId in s.dues && s.dues[dueId].tenancyId in s.tenancies
        && s.tenancies[s.dues[dueId].tenancyId].tenantId == tenantId
  }

  /** If the gateway's verified success is the next thing to happen, the due is paid off to the last paisa. */
  predicate ClearedBySuccess(s: State, txn: Id, dueId: Id) {
    var s' := PaymentRules.HandleWebhook(s, txn, true, GatewaySuccess).db;
    && dueId in s'.dues && s'.dues[dueId].status == Paid && s'.dues[dueId].paid == s'.dues[dueId].total
    && txn in s'.transactions && s'.transactions[txn].status == Success && txn in s'.settlements
  }

  lemma InitiationLeadsToPayment(s: State, dueId: Id, tenantId: Id)
    requires Inv(s) && PaymentRules.InitiatePayment(s, dueId, tenantId).result.Ok?
    ensures var r := PaymentRules.InitiatePayment(s, dueId, tenantId);
            r.result.value !in s.transactions && ClearedBySuccess(r.db, r.result.value, dueId)
  {
    hide PaymentRules.InitiatePayment, PaymentRules.HandleWebhook, OccupancyOk, DebtOk, LedgerOk, TransactionsOk,
         SettledOk,
         PendingOk, ReadingsOk;
    Flows.OpenedTransaction(s, dueId, tenantId);
    Flows.InitiatedPaymentClears(s, dueId, tenantId);
  }

  /** A payment of the tenant's own open due: its whole balance goes to the gateway. */
  method InitiatePayment(db: Database, dueId: Id, tenantId: Id) returns (r: Result<Id>)
    modifies db`nextId, db`transactions
    ensures Reply(db.Snapshot(), r) == PaymentRules.InitiatePayment(old(db.Snapshot()), dueId, tenantId)
    ensures r.Err? ==>
              r == Err(if dueId !in old(db.dues) then NotFound
                       else if !Owes(old(db.Snapshot()), tenantId, dueId) then Unauthorized else BadRequest)
    ensures r.Err? ==> db.Snapshot() == old(db.Snapshot())
    ensures r.Ok? <==>
              && Owes(db.Snapshot(), tenantId, dueId) && db.dues[dueId].status != Paid
              && db.dues[dueId].status != Waived && db.dues[dueId].balance > 0.0
              && db.dues[dueId].propertyId in db.gateways
    ensures r.Ok? ==>
              db.transactions
              == old(db.transactions)[r.value := Transaction(Some(dueId), [], db.dues[dueId].propertyId,
                                                             db.dues[dueId].balance, Initiated)]
    ensures Inv(old(db.Snapshot())) ==>
              && Inv(db.Snapshot())
              && (r.Ok? ==> r.value !in old(db.transactions) && ClearedBySuccess(db.Snapshot(), r.value, dueId))
  {
    hide NewTransaction, Inv, ClearedBySuccess;
    ghost var s := db.Snapshot();
    if Inv(s) {
      InitiatePaymentKeepsInv(s, dueId, tenantId);
    }
    if PaymentRules.InitiatePayment(s, dueId, tenantId).result.Ok? {
      Flows.OpenedTransaction(s, dueId, tenantId);
      if Inv(s) {
        InitiationLeadsToPayment(s, dueId, tenantId);
      }
    }
    if dueId !in db.dues {
      return Err(NotFound);
    }
    var due := db.dues[dueId];
    if due.tenancyId !in db.tenancies || db.tenancies[due.tenancyId].tenantId != tenantId {
      return Err(Unauthorized);
    }
    if due.status == Paid || due.status == Waived || due.balance <= 0.0 {
      return Err(BadRequest);
    }
    if due.propertyId !in db.gateways {
      return Err(BadRequest);
    }
    var transaction := CreateTransaction(db, Some(dueId), due.propertyId, due.balance);
    return Ok(transaction);
  }

  function LineIds(lines: seq<Line>): DueIds {
    seq(|lines|, i requires 0 <= i < |lines| => lines[i].dueId)
  }

  /**
   A payment of several dues. propertyId is the property of the dues; the lock on their ids refuses a second
   payment of the same dues, in any order, until it expires.
   */
  method MakePayment(db: Database, cache: PaymentCache, tenantId: Id, totalAmount: Money, lines: seq<Line>, now: int)
    returns (r: Result<Id>, ghost propertyId: Id)
    requires PositiveLines(lines) && WholeLines(lines)
    modifies db`nextId, db`transactions, cache
    ensures Locked(old(cache.store), LineIds(lines), now) ==>
        r == Err(BadRequest) && db.Snapshot() == old(db.Snapshot())
    ensures !Locked(old(cache.store), LineIds(lines), now) ==>
              && Reply(db.Snapshot(), r) == PaymentRules.MakePayment(old(db.Snapshot()), tenantId, totalAmount, lines,
                  propertyId)
              && (r.Err? ==> forall p :: !FairPayment(old(db.Snapshot()), tenantId, totalAmount, lines, p))
    ensures r.Ok? ==>
              && FairPayment(old(db.Snapshot()), tenantId, totalAmount, lines, propertyId)
              && db.transactions
                 == old(db.transactions)[r.value := Transaction(None, lines, propertyId, totalAmount, Initiated)]
    ensures r.Err? ==> r == Err(BadRequest)
    ensures r.Err? ==> db.Snapshot() == old(db.Snapshot())
    ensures Inv(old(db.Snapshot())) ==> Inv(db.Snapshot()) && (r.Ok? ==> r.value !in old(db.transactions))
    ensures cache.store
            == if r.Ok? then old(cache.store)[LockKey(LineIds(lines)) := now + 840] else old(cache.store)
  {
    hide PositiveLines, WholeLines, SoundPayment, Accepts, PayableTenancies, LockKey, LineIds, FairPayment, Inv;
    var s := db.Snapshot();
    forall p {
      PaymentAcceptedExactly(s, tenantId, totalAmount, lines, p);
    }
    if Inv(s) {
      TransactionIdIsFresh(s);
      forall p {
        MakePaymentKeepsInv(s, tenantId, totalAmount, lines, p);
      }
    }
    propertyId := 0;
    var dueIds := new int[|lines|](i requires 0 <= i < |lines| => lines[i].dueId);
    LineIdsAre(lines, dueIds[..]);
    var processing := cache.IsPaymentLocked(dueIds, now);
    if processing {
      return Err(BadRequest), propertyId;
    }
    forall p {
      AcceptsIsSound(s, totalAmount, lines, PayableTenancies(s, tenantId), p);
    }
    var validated := ValidateDueAndAmount(db, totalAmount, lines, PayableTenancies(s, tenantId));
    if validated.Err? {
      return Err(BadRequest), propertyId;
    }
    propertyId := validated.value;
    if validated.value !in db.gateways {
      OnlyProperty(s, totalAmount, lines, PayableTenancies(s, tenantId), propertyId);
      return Err(BadRequest), propertyId;
    }
    var id := CreateTransaction(db, None, validated.value, totalAmount);
    AddLines(db, id, lines, s, validated.value, totalAmount);
    dueIds := new int[|lines|](i requires 0 <= i < |lines| => lines[i].dueId);
    LineIdsAre(lines, dueIds[..]);
    cache.LockPayment(dueIds, now);
    return Ok(id), propertyId;
  }

  lemma TransactionIdIsFresh(s: State)
    requires Inv(s)
    ensures s.nextId !in s.transactions
  {
  }

  /** The payment lines of a transaction just created. */
  method AddLines(db: Database, id: Id, lines: seq<Line>, ghost s: State, propertyId: Id, amount: Money)
    requires id == s.nextId && db.Snapshot() == NewTransaction(s, None, [], propertyId, amount)
    modifies db`transactions
    ensures db.Snapshot() == NewTransaction(s, None, lines, propertyId, amount)
  {
    db.transactions := db.transactions[id := db.transactions[id].(lines := lines)];
  }

  lemma LineIdsAre(lines: seq<Line>, ids: seq<int>)
    requires |ids| == |lines| && forall i :: 0 <= i < |lines| ==> ids[i] == lines[i].dueId
    ensures ids == LineIds(lines)
  {
  }

  /** A sound payment is sound for one property only. */
  lemma OnlyProperty(s: State, totalAmount: Money, lines: seq<Line>, tenancyIds: set<Id>, propertyId: Id)
    requires SoundPayment(s, totalAmount, lines, tenancyIds, propertyId)
    ensures forall p :: SoundPayment(s, totalAmount, lines, tenancyIds, p) ==> p == propertyId
  {
    hide AmountsDeclared, DistinctDues;
    assert LinePayable(s, lines[0]);
  }

  // --------------------------------------------------------------------- webhook

  method SetTransactionStatus(db: Database, txn: Id, status: TransactionStatus)
    requires txn in db.transactions
    modifies db`transactions
    ensures db.Snapshot() == SetStatus(old(db.Snapshot()), txn, status)
  {
    db.transactions := db.transactions[txn := db.transactions[txn].(status := status)];
  }

  /** The payment row and the due as updated from the row that was read. */
  method RecordGatewayPayment(db: Database, dueId: Id, due: Due, paidAmount: Money)
    modifies db`nextId, db`payments, db`dues
    ensures db.Snapshot() == RecordPayment(old(db.Snapshot()), dueId, due, paidAmount)
    ensures db.payments
         == old(db.payments)[old(db.nextId) := Payment(dueId, due.tenancyId, due.propertyId, paidAmount)]
  {
    var newPaid := due.paid + paidAmount;
    var newBalance := Max(0.0, due.balance - paidAmount);
    var newStatus := if newBalance == 0.0 then Paid else Partial;
    var payment := db.nextId;
    db.nextId := payment + 1;
    db.payments := db.payments[payment := Payment(dueId, due.tenancyId, due.propertyId, paidAmount)];
    db.dues := db.dues[dueId := due.(paid := newPaid, balance := newBalance, status := newStatus)];
  }

  lemma SinglePaymentRecorded(s: State, dueId: Id, amount: Money)
    requires Inv(s) && amount > 0.0 && dueId in s.dues && s.dues[dueId].status != Paid
    ensures var s' := RecordPayment(s, dueId, s.dues[dueId], amount);
            && LedgerOk(s'.dues, s'.payments) && s'.dues.Keys == s.dues.Keys
            && PaidInto(s'.payments, dueId) == PaidInto(s.payments, dueId) + amount
            && s.nextId !in s.payments
  {
    hide FreshIds, OccupancyOk, DebtOk, LedgerOk, TransactionsOk, SettledOk, PendingOk, ReadingsOk, PaidInto, PayInto;
    RecordPaymentKeeps(s, dueId, amount);
    PaymentIdIsFresh(s);
    PaidIntoAdd(s.payments, s.nextId, PaymentFor(dueId, s.dues[dueId], amount), dueId);
  }

  lemma StatusOnly(s: State, txn: Id)
    requires txn in s.transactions
    ensures var s' := SetStatus(s, txn, Success);
            && s'.dues == s.dues && s'.payments == s.payments
            && txn in s'.transactions && s'.transactions[txn].status == Success
  {
  }

  /** Pays the due once: a paid one is not paid again, another is credited with exactly the transaction's amount. */
  method ProcessSingleDuePayment(db: Database, txn: Id, dueId: Id)
    requires txn in db.transactions
    modifies db`nextId, db`payments, db`dues, db`transactions
    ensures db.Snapshot() == ProcessSingleDue(old(db.Snapshot()), txn, dueId)
    ensures dueId !in old(db.dues) ==> db.Snapshot() == old(db.Snapshot())
    ensures dueId in old(db.dues) ==>
              && txn in db.transactions && db.transactions[txn].status == Success && dueId in db.dues
              && (old(db.dues)[dueId].status == Paid ==> db.dues == old(db.dues) && db.payments == old(db.payments))
    ensures Inv(old(db.Snapshot())) && old(db.transactions)[txn].amount > 0.0 && dueId in old(db.dues)
            && old(db.dues)[dueId].status != Paid ==>
              && old(db.nextId) !in old(db.payments)
              && db.payments
                 == old(db.payments)[old(db.nextId) := Payment(dueId, old(db.dues)[dueId].tenancyId,
                                                               old(db.dues)[dueId].propertyId,
                                                               old(db.transactions)[txn].amount)]
              && LedgerOk(db.dues, db.payments) && db.dues.Keys == old(db.dues).Keys
              && PaidInto(db.payments, dueId) == old(PaidInto(db.payments, dueId)) + old(db.transactions)[txn].amount
  {
    hide Inv, LedgerOk, PaidInto, SetStatus;
    ghost var s := db.Snapshot();
    if Inv(s) && s.transactions[txn].amount > 0.0 && dueId in s.dues && s.dues[dueId].status != Paid {
      SinglePaymentRecorded(s, dueId, s.transactions[txn].amount);
    }
    if dueId in s.dues {
      StatusOnly(s, txn);
      StatusOnly(RecordPayment(s, dueId, s.dues[dueId], s.transactions[txn].amount), txn);
    }
    if dueId !in db.dues {
      return;
    }
    if db.dues[dueId].status == Paid {
      SetTransactionStatus(db, txn, Success);
      return;
    }
    RecordGatewayPayment(db, dueId, db.dues[dueId], db.transactions[txn].amount);
    SetTransactionStatus(db, txn, Success);
  }

  /**
   Each line was taken from its due unless that was paid already, and what came in is what the lines add up to without
   those.
   */
  ghost predicate LinesTaken(s: State, s': State, lines: seq<Line>) {
    && LedgerOk(s'.dues, s'.payments) && s'.dues.Keys == s.dues.Keys
    && Total(AmountsPaid(s'.payments)) + SkippedTotal(s.dues, lines)
       == Total(AmountsPaid(s.payments)) + LineTotal(lines)
    && forall k :: 0 <= k < |lines| ==>
         && lines[k].dueId in s.dues
         && s'.dues[lines[k].dueId]
            == (if s.dues[lines[k].dueId].status == Paid then s.dues[lines[k].dueId]
                else PayInto(s.dues[lines[k].dueId], lines[k].amount))
         && (s.dues[lines[k].dueId].status != Paid ==> LineRecorded(s, s', lines[k]))
  }

  /** A new payment row says what the line took, and from whom. */
  ghost predicate LineRecorded(s: State, s': State, line: Line)
    requires line.dueId in s.dues
  {
    exists id :: && id in s'.payments && id !in s.payments
                 && s'.payments[id] == Payment(line.dueId, s.dues[line.dueId].tenancyId,
                                               s.dues[line.dueId].propertyId, line.amount)
  }

  lemma RecordedBefore(s: State, before: State, id: Id, payment: Payment, line: Line)
    requires line.dueId in s.dues && id !in before.payments && LineRecorded(s, before, line)
    ensures LineRecorded(s, before.(payments := before.payments[id := payment]), line)
  {
    var own :| && own in before.payments && own !in s.payments
               && before.payments[own] == Payment(line.dueId, s.dues[line.dueId].tenancyId,
                                                  s.dues[line.dueId].propertyId, line.amount);
    assert before.payments[id := payment][own] == before.payments[own];
  }

  lemma SamePaymentsRecorded(s: State, a: State, b: State, line: Line)
    requires line.dueId in s.dues && a.payments == b.payments && LineRecorded(s, a, line)
    ensures LineRecorded(s, b, line)
  {
  }

  lemma {:induction false} LinesRecorded(s: State, lines: seq<Line>)
    requires Inv(s) && DistinctDues(lines) && PositiveLines(lines)
    requires forall i :: 0 <= i < |lines| ==> lines[i].dueId in s.dues
    ensures forall id :: id in s.payments ==> id in PayLines(s, s.dues, lines).payments
    ensures forall k :: 0 <= k < |lines| && s.dues[lines[k].dueId].status != Paid ==>
              LineRecorded(s, PayLines(s, s.dues, lines), lines[k])
    decreases |lines|
  {
    hide Inv, LineRecorded, PayInto;
    if lines != [] {
      var front, line := lines[..|lines| - 1], lines[|lines| - 1];
      LinesRecorded(s, front);
      PayLinesKeeps(s, front);
      var before, after := PayLines(s, s.dues, front), PayLines(s, s.dues, lines);
      PaymentIdIsFresh(before);
      var payment := PaymentFor(line.dueId, s.dues[line.dueId], line.amount);
      forall k | 0 <= k < |lines| && s.dues[lines[k].dueId].status != Paid
        ensures LineRecorded(s, after, lines[k])
      {
        if k < |front| {
          assert front[k] == lines[k];
          if s.dues[line.dueId].status != Paid {
            RecordedBefore(s, before, before.nextId, payment, lines[k]);
            SamePaymentsRecorded(s, before.(payments := before.payments[before.nextId := payment]), after, lines[k]);
          }
        } else {
          NewestRecorded(s, before, after, line);
        }
      }
    }
  }

  lemma NewestRecorded(s: State, before: State, after: State, line: Line)
    requires line.dueId in s.dues && before.nextId !in s.payments
    requires after.payments
          == before.payments[before.nextId := PaymentFor(line.dueId, s.dues[line.dueId], line.amount)]
    ensures LineRecorded(s, after, line)
  {
    assert after.payments[before.nextId] == PaymentFor(line.dueId, s.dues[line.dueId], line.amount);
  }

  lemma MultiPaymentRecorded(s: State, txn: Id)
    requires Inv(s) && txn in s.transactions
    ensures LinesTaken(s, ProcessMultiDue(s, txn), s.transactions[txn].lines)
  {
    hide Inv, PayLines, PayInto, SetStatus, AmountsPaid, SkippedTotal, LineTotal, Total, LedgerOk, LineRecorded;
    var lines := s.transactions[txn].lines;
    Flows.SoundLines(s, txn);
    LinesRecorded(s, lines);
    PayLinesFrame(s, s.dues, lines);
    PayLinesConserves(s, lines);
    PayLinesKeeps(s, lines);
    SoundLedger(PayLines(s, s.dues, lines));
    forall k | 0 <= k < |lines|
      ensures lines[k].dueId in PayLines(s, s.dues, lines).dues
      ensures PayLines(s, s.dues, lines).dues[lines[k].dueId]
              == if s.dues[lines[k].dueId].status == Paid then s.dues[lines[k].dueId]
                 else PayInto(s.dues[lines[k].dueId], lines[k].amount)
      ensures s.dues[lines[k].dueId].status != Paid ==> LineRecorded(s, ProcessMultiDue(s, txn), lines[k])
    {
      LinePaid(s, lines, k);
      if s.dues[lines[k].dueId].status != Paid {
        StatusOnly(PayLines(s, s.dues, lines), txn);
        SamePaymentsRecorded(s, PayLines(s, s.dues, lines), ProcessMultiDue(s, txn), lines[k]);
      }
    }
    if lines == [] {
      NoLines(s);
    } else {
      StatusOnly(PayLines(s, s.dues, lines), txn);
    }
  }

  lemma MultiMarked(s: State, txn: Id)
    requires txn in s.transactions
    ensures var lines, s' := s.transactions[txn].lines, ProcessMultiDue(s, txn);
            if lines == [] then s' == s else txn in s'.transactions && s'.transactions[txn].status == Success
  {
    hide PayLines, SetStatus;
    var lines := s.transactions[txn].lines;
    PayLinesFrame(s, s.dues, lines);
    StatusOnly(PayLines(s, s.dues, lines), txn);
  }

  lemma SoundLedger(s: State)
    requires Inv(s)
    ensures LedgerOk(s.dues, s.payments)
  {
    hide LedgerOk;
  }

  lemma NoLines(s: State)
    ensures PayLines(s, s.dues, []) == s
  {
  }

  method ProcessMultiDuePayment(db: Database, txn: Id)
    requires txn in db.transactions
    modifies db`nextId, db`payments, db`dues, db`transactions
    ensures db.Snapshot() == ProcessMultiDue(old(db.Snapshot()), txn)
    ensures old(db.transactions)[txn].lines == [] ==> db.Snapshot() == old(db.Snapshot())
    ensures old(db.transactions)[txn].lines != [] ==> txn in db.transactions && db.transactions[txn].status == Success
    ensures Inv(old(db.Snapshot())) ==>
              LinesTaken(old(db.Snapshot()), db.Snapshot(), old(db.transactions)[txn].lines)
  {
    hide SetStatus, RecordPayment, Inv, LinesTaken;
    ghost var s := db.Snapshot();
    if Inv(s) {
      MultiPaymentRecorded(s, txn);
    }
    MultiMarked(s, txn);
    var transactionDues, read := db.transactions[txn].lines, db.dues;
    if |transactionDues| == 0 {
      return;
    }
    for i := 0 to |transactionDues|
      invariant db.Snapshot() == PayLines(old(db.Snapshot()), read, transactionDues[..i])
    {
      assert transactionDues[..i + 1][..i] == transactionDues[..i];
      var line := transactionDues[i];
      if line.dueId in read && read[line.dueId].status != Paid {
        RecordGatewayPayment(db, line.dueId, read[line.dueId], line.amount);
      }
    }
    assert transactionDues[..|transactionDues|] == transactionDues;
    PayLinesFrame(old(db.Snapshot()), read, transactionDues);
    SetTransactionStatus(db, txn, Success);
  }

  method ProcessSuccess(db: Database, txn: Id)
    requires txn in db.transactions
    modifies db`nextId, db`payments, db`dues, db`transactions
    ensures db.Snapshot() == ProcessSuccessfulPayment(old(db.Snapshot()), txn)
  {
    hide ProcessSingleDue, ProcessMultiDue;
    match db.transactions[txn].dueId
    case Some(dueId) => ProcessSingleDuePayment(db, txn, dueId);
    case None => ProcessMultiDuePayment(db, txn);
  }

  /** The settlement row, unique per transaction, and the upsert of the property's ledger. */
  method SettleTransaction(db: Database, txn: Id, propertyId: Id, amount: Money) returns (ok: bool)
    modifies db`settlements, db`pendingSettlement
    ensures ok <==> txn !in old(db.settlements)
    ensures db.Snapshot() == if ok then Settle(old(db.Snapshot()), txn, propertyId, amount) else old(db.Snapshot())
  {
    if txn in db.settlements {
      return false;
    }
    db.settlements := db.settlements[txn := Settlement(propertyId, amount)];
    if propertyId in db.pendingSettlement {
      db.pendingSettlement := db.pendingSettlement[propertyId := db.pendingSettlement[propertyId] + amount];
    } else {
      db.pendingSettlement := db.pendingSettlement[propertyId := amount];
    }
    return true;
  }

  /**
   One delivery: it decides at most its own transaction, by hash and reported status, and only while that is INITIATED.
   A success also pays, settles and credits the ledger.
   */
  method HandleWebhook(db: Database, txn: Id, hashValid: bool, status: GatewayStatus) returns (r: Result<Callback>)
    modifies db`nextId, db`payments, db`dues, db`transactions, db`settlements, db`pendingSettlement
    ensures Reply(db.Snapshot(), r) == PaymentRules.HandleWebhook(old(db.Snapshot()), txn, hashValid, status)
    ensures txn !in old(db.transactions) || old(db.transactions)[txn].status != Initiated ==>
              db.Snapshot() == old(db.Snapshot())
    ensures Inv(old(db.Snapshot())) ==>
              && Inv(db.Snapshot()) && TransactionsProgress(old(db.Snapshot()), db.Snapshot())
              && (forall t :: t in old(db.transactions) && t != txn ==>
                    t in db.transactions && db.transactions[t] == old(db.transactions)[t])
              && (txn in old(db.transactions) ==>
                    txn in db.transactions
                    && db.transactions[txn].status == Outcome(old(db.Snapshot()), txn, hashValid, status))
    ensures r == Ok(UnknownTransaction) <==> txn !in old(db.transactions)
    ensures txn in old(db.transactions) && old(db.transactions)[txn].status != Initiated ==>
              r == Ok(Answered(old(db.transactions)[txn].status, true))
    ensures txn in old(db.transactions) && old(db.transactions)[txn].status == Initiated && r.Ok? ==>
              && (r.value.verified <==> hashValid && old(db.transactions)[txn].propertyId in db.gateways)
              && r.value.status == (if !r.value.verified then Failed
                                    else match status
                                         case GatewaySuccess => Success
                                         case UserCancelled => Cancelled
                                         case OtherStatus => Failed)
    ensures r.Err? ==> txn in old(db.settlements)
  {
    hide ProcessSuccessfulPayment, SetStatus, Settle, Inv, TransactionsProgress, Outcome;
    ghost var s := db.Snapshot();
    if Inv(s) {
      HandleWebhookKeepsInv(s, txn, hashValid, status);
      WebhookDecidesOnce(s, txn, hashValid, status);
      if txn in s.transactions {
        WebhookSetsOutcome(s, txn, hashValid, status);
      }
    }
    if txn !in db.transactions {
      return Ok(UnknownTransaction);
    }
    var transaction := db.transactions[txn];
    if transaction.status != Initiated {
      return Ok(Answered(transaction.status, true));
    }
    if transaction.propertyId !in db.gateways {
      return Ok(Answered(Failed, false));
    }
    if !hashValid {
      SetTransactionStatus(db, txn, Failed);
      return Ok(Answered(Failed, false));
    }
    if status == GatewaySuccess {
      ProcessSuccess(db, txn);
      var ok := SettleTransaction(db, txn, transaction.propertyId, transaction.amount);
      return if ok then Ok(Answered(Success, true)) else Err(ConstraintViolation);
    }
    var transactionStatus := if status == UserCancelled then Cancelled else Failed;
    SetTransactionStatus(db, txn, transactionStatus);
    return Ok(Answered(transactionStatus, true));
  }
}
