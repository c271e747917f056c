/** Calls in sequence: a payment from initiation to settlement, a tenant from arrival to the first attempt to leave. */
module Flows {
  import opened Calendar
  import opened DueProofs
  import opened DueRules
  import opened Invariants
  import opened Numbers
  import opened PaymentProofs
  import opened PaymentRules
  import opened Proration
  import opened Sums
  import opened Tables
  import opened TenancyProofs
  import opened TenancyRules
  import opened Text

  // -------------------------------------------------------------------- payments

  /** A payment of one due that succeeds before anything else happens clears the due exactly and settles its balance. */
  lemma InitiatedPaymentClears(s: State, dueId: Id, tenantId: Id)
    requires Inv(s) && InitiatePayment(s, dueId, tenantId).result.Ok?
    ensures var initiated := InitiatePayment(s, dueId, tenantId);
            var txn, s' := initiated.result.value, HandleWebhook(initiated.db, initiated.result.value, true,
                GatewaySuccess).db;
            && dueId in s'.dues && s'.dues[dueId].status == Paid
            && s'.dues[dueId].paid == s'.dues[dueId].total == s.dues[dueId].total && s'.dues[dueId].balance == 0.0
            && txn in s'.transactions && s'.transactions[txn].status == Success
            && txn in s'.settlements
            && s'.settlements[txn] == Settlement(s.dues[dueId].propertyId, s.dues[dueId].balance)
  {
    hide Inv, InitiatePayment, HandleWebhook, SetStatus, Settle, PaidDues;
    var s1, txn := InitiatePayment(s, dueId, tenantId).db, InitiatePayment(s, dueId, tenantId).result.value;
    OpenedTransaction(s, dueId, tenantId);
    OpenBalance(s, dueId);
    InitiatePaymentKeepsInv(s, dueId, tenantId);
    WebhookPays(s1, txn, true, GatewaySuccess);
    SingleDuePaid(s1, txn, dueId);
    SettledRows(PaidDues(s1, txn), txn, s.dues[dueId].propertyId, s.dues[dueId].balance);
  }

  /** An accepted initiation opens an undecided transaction for the whole balance, and changes nothing else. */
  lemma OpenedTransaction(s: State, dueId: Id, tenantId: Id)
    requires InitiatePayment(s, dueId, tenantId).result.Ok?
    ensures var initiated := InitiatePayment(s, dueId, tenantId);
            var t := initiated.result.value;
            && t == s.nextId && t in initiated.db.transactions && dueId in s.dues
            && s.dues[dueId].status != Paid && s.dues[dueId].balance > 0.0 && s.dues[dueId].propertyId in s.gateways
            && initiated.db.transactions[t]
               == Transaction(Some(dueId), [], s.dues[dueId].propertyId, s.dues[dueId].balance, Initiated)
            && initiated.db.transactions == s.transactions[t := initiated.db.transactions[t]]
            && initiated.db == s.(nextId := s.nextId + 1, transactions := initiated.db.transactions)
  {
  }

  /** What is missing from an unpaid or partly paid due is its balance. */
  lemma OpenBalance(s: State, dueId: Id)
    requires Inv(s) && dueId in s.dues && s.dues[dueId].status != Paid
    ensures s.dues[dueId].paid + s.dues[dueId].balance == s.dues[dueId].total
    ensures s.dues[dueId].paid >= 0.0 && (s.dues[dueId].status == Unpaid || s.dues[dueId].status == Partial)
  {
    hide PaidInto;
    assert DueOk(s.dues[dueId], PaidInto(s.payments, dueId));
  }

  lemma SingleDuePaid(s: State, txn: Id, dueId: Id)
    requires txn in s.transactions && s.transactions[txn].dueId == Some(dueId)
    requires dueId in s.dues && s.dues[dueId].status != Paid
    ensures PaidDues(s, txn).dues == s.dues[dueId := PayInto(s.dues[dueId], s.transactions[txn].amount)]
    ensures PaidDues(s, txn).transactions == s.transactions
  {
    hide PayLines;
  }

  /** Marking and settling leave the dues alone and write the transaction's outcome and settlement row. */
  lemma SettledRows(s: State, txn: Id, propertyId: Id, amount: Money)
    requires txn in s.transactions
    ensures var s' := Settle(SetStatus(s, txn, Success), txn, propertyId, amount);
            && s'.dues == s.dues && txn in s'.transactions && s'.transactions[txn].status == Success
            && txn in s'.settlements && s'.settlements[txn] == Settlement(propertyId, amount)
  {
  }

  /** A payment of several dues that succeeds before anything else happens takes from each due exactly its line. */
  lemma AcceptedPaymentPaysItsLines(s: State, tenantId: Id, totalAmount: Money, lines: seq<Line>, propertyId: Id,
          k: nat)
    requires Inv(s) && MakePayment(s, tenantId, totalAmount, lines, propertyId).result.Ok? && k < |lines|
    ensures var made := MakePayment(s, tenantId, totalAmount, lines, propertyId);
            var txn, s' := made.result.value, HandleWebhook(made.db, made.result.value, true, GatewaySuccess).db;
            && lines[k].dueId in s.dues && lines[k].dueId in s'.dues
            && s'.dues[lines[k].dueId].balance == s.dues[lines[k].dueId].balance - lines[k].amount
            && s'.dues[lines[k].dueId].paid == s.dues[lines[k].dueId].paid + lines[k].amount
            && txn in s'.transactions && s'.transactions[txn].status == Success
            && txn in s'.settlements && s'.settlements[txn] == Settlement(propertyId, totalAmount)
            && totalAmount == LineTotal(lines)
  {
    hide Inv, MakePayment, HandleWebhook, SetStatus, Settle, PaidDues, LineTotal, LinePayable;
    var s1, txn := MakePayment(s, tenantId, totalAmount, lines, propertyId).db,
        MakePayment(s, tenantId, totalAmount, lines, propertyId).result.value;
    MadeTransaction(s, tenantId, totalAmount, lines, propertyId);
    MakePaymentKeepsInv(s, tenantId, totalAmount, lines, propertyId);
    UnchangedBalancesDropExactly(s1, txn, k);
    WebhookPays(s1, txn, true, GatewaySuccess);
    SettledRows(PaidDues(s1, txn), txn, propertyId, totalAmount);
  }

  /** An accepted payment opens an undecided transaction for its lines, all of which are payable. */
  lemma MadeTransaction(s: State, tenantId: Id, totalAmount: Money, lines: seq<Line>, propertyId: Id)
    requires MakePayment(s, tenantId, totalAmount, lines, propertyId).result.Ok?
    ensures var made := MakePayment(s, tenantId, totalAmount, lines, propertyId);
            && made.result.value in made.db.transactions
            && made.db.transactions[made.result.value] == Transaction(None, lines, propertyId, totalAmount, Initiated)
            && made.db.dues == s.dues && made.db.gateways == s.gateways && propertyId in s.gateways
            && lines != [] && totalAmount == LineTotal(lines)
            && forall i :: 0 <= i < |lines| ==> LinePayable(made.db, lines[i])
  {
    hide Accepts, LineTotal, DistinctDues, PayableTenancies;
    AcceptsIsSound(s, totalAmount, lines, PayableTenancies(s, tenantId), propertyId);
    forall i | 0 <= i < |lines|
      ensures LinePayable(MakePayment(s, tenantId, totalAmount, lines, propertyId).db, lines[i])
    {
      assert LinePayable(s, lines[i]);
    }
  }

  /**
   Overpaying, at the delivery: a verified success for one due leaves paid and balance adding up to the total exactly
   if its amount does not exceed the balance; otherwise more is paid than was asked for.
   */
  lemma DeliveryOverpaysExactly(s: State, txn: Id, dueId: Id)
    requires Inv(s) && PaysOut(s, txn, true, GatewaySuccess) && s.transactions[txn].dueId == Some(dueId)
    requires dueId in s.dues && s.dues[dueId].status != Paid
    ensures var s' := HandleWebhook(s, txn, true, GatewaySuccess).db;
            && dueId in s'.dues
            && (s'.dues[dueId].paid + s'.dues[dueId].balance == s'.dues[dueId].total
                <==> s.transactions[txn].amount <= s.dues[dueId].balance)
            && (s'.dues[dueId].paid > s'.dues[dueId].total <==> s.transactions[txn].amount > s.dues[dueId].balance)
  {
    hide Inv, HandleWebhook, SetStatus, Settle, PaidDues;
    var t := s.transactions[txn];
    OpenBalance(s, dueId);
    WebhookPays(s, txn, true, GatewaySuccess);
    SingleDuePaid(s, txn, dueId);
    SettledRows(PaidDues(s, txn), txn, t.propertyId, t.amount);
  }

  /** The same for each due of a payment of several. */
  lemma LineOverpaysExactly(s: State, txn: Id, k: nat)
    requires Inv(s) && PaysOut(s, txn, true, GatewaySuccess) && k < |s.transactions[txn].lines|
    requires var d := s.transactions[txn].lines[k].dueId; d in s.dues && s.dues[d].status != Paid
    ensures var line, s' := s.transactions[txn].lines[k], HandleWebhook(s, txn, true, GatewaySuccess).db;
            && line.dueId in s'.dues
            && (s'.dues[line.dueId].paid > s'.dues[line.dueId].total <==> line.amount > s.dues[line.dueId].balance)
  {
    hide Inv, HandleWebhook, SetStatus, Settle, PayLines;
    var t := s.transactions[txn];
    OpenBalance(s, t.lines[k].dueId);
    SoundLines(s, txn);
    LinePaid(s, t.lines, k);
    WebhookPays(s, txn, true, GatewaySuccess);
    SettledRows(PaidDues(s, txn), txn, t.propertyId, t.amount);
  }

  lemma SoundLines(s: State, txn: Id)
    requires Inv(s) && txn in s.transactions
    ensures var t := s.transactions[txn];
            && DistinctDues(t.lines) && PositiveLines(t.lines) && (t.lines != [] ==> t.dueId.None?)
            && forall i :: 0 <= i < |t.lines| ==> t.lines[i].dueId in s.dues
  {
    assert TransactionOk(s.dues, s.transactions[txn]);
  }

  /**
   How a due gets overpaid: its whole balance is taken to the gateway, cash is collected meanwhile, and the gateway
   reports success. More is paid than asked for exactly if the cash did not clear the due.
   */
  lemma StalePaymentOverpays(s: State, dueId: Id, tenantId: Id, amount: real)
    requires Inv(s) && InitiatePayment(s, dueId, tenantId).result.Ok?
    requires CollectDue(InitiatePayment(s, dueId, tenantId).db, dueId, amount).result.Ok?
    ensures var initiated := InitiatePayment(s, dueId, tenantId);
            var collected := CollectDue(initiated.db, dueId, amount).db;
            var s' := HandleWebhook(collected, initiated.result.value, true, GatewaySuccess).db;
            && dueId in s'.dues
            && (s'.dues[dueId].paid > s'.dues[dueId].total <==> Ceil(amount) as real < s.dues[dueId].balance)
  {
    hide Inv, InitiatePayment, CollectDue, HandleWebhook, Ceil;
    var s1, txn := InitiatePayment(s, dueId, tenantId).db, InitiatePayment(s, dueId, tenantId).result.value;
    var s2 := CollectDue(s1, dueId, amount).db;
    OpenedTransaction(s, dueId, tenantId);
    InitiatePaymentKeepsInv(s, dueId, tenantId);
    CollectTakesFromBalance(s1, dueId, amount);
    CollectDueKeepsInv(s1, dueId, amount);
    CollectedDueStays(s1, dueId, amount);
    CollectionLeaves(s1, dueId, amount);
    ZeroBalanceIsPaidOrFree(s2, dueId);
    OpenBalance(s, dueId);
    if s2.dues[dueId].status == Paid {
      PaidDueIsSkipped(s2, txn, dueId);
    } else {
      OpenBalance(s2, dueId);
      DeliveryOverpaysExactly(s2, txn, dueId);
    }
  }

  lemma CollectionLeaves(s: State, dueId: Id, amount: real)
    ensures var s' := CollectDue(s, dueId, amount).db;
            s'.transactions == s.transactions && s'.gateways == s.gateways
  {
    hide CollectDue;
  }

  lemma PaidDueIsSkipped(s: State, txn: Id, dueId: Id)
    requires Inv(s) && PaysOut(s, txn, true, GatewaySuccess) && s.transactions[txn].dueId == Some(dueId)
    requires dueId in s.dues && s.dues[dueId].status == Paid
    ensures HandleWebhook(s, txn, true, GatewaySuccess).db.dues == s.dues
  {
    hide Inv, HandleWebhook, SetStatus, Settle;
    var t := s.transactions[txn];
    WebhookPays(s, txn, true, GatewaySuccess);
    SettledRows(PaidDues(s, txn), txn, t.propertyId, t.amount);
  }

  /**
   How a transaction loses its due: the due of a pending payment is deleted. The later success is settled, but the
   transaction stays INITIATED and no due is paid.
   */
  lemma DeletedDueDetaches(s: State, dueId: Id, tenantId: Id, ownerId: Id)
    requires Inv(s) && InitiatePayment(s, dueId, tenantId).result.Ok?
    requires Owns(s, ownerId, s.dues[dueId].propertyId) && s.dues[dueId].status == Unpaid && !OnPaymentLine(s, dueId)
    ensures var initiated := InitiatePayment(s, dueId, tenantId);
            var txn, deleted := initiated.result.value, DeleteDue(initiated.db, dueId, ownerId);
            && deleted.result.Ok? && txn in deleted.db.transactions && Detached(deleted.db.transactions[txn])
            && var s' := HandleWebhook(deleted.db, txn, true, GatewaySuccess).db;
            && txn in s'.settlements && txn in s'.transactions && s'.transactions[txn].status == Initiated
            && s'.payments == s.payments
  {
    hide Inv, InitiatePayment, DeleteDue, HandleWebhook, OnPaymentLine, Owns;
    var s1, txn := InitiatePayment(s, dueId, tenantId).db, InitiatePayment(s, dueId, tenantId).result.value;
    OpenedTransaction(s, dueId, tenantId);
    InitiatePaymentKeepsInv(s, dueId, tenantId);
    NoNewLine(s, dueId, tenantId);
    DeletableExactly(s1, dueId, ownerId);
    DeletedRows(s1, dueId, ownerId, txn);
    DeleteDueKeepsInv(s1, dueId, ownerId);
    var s2 := DeleteDue(s1, dueId, ownerId).db;
    DetachedSettlesWithoutSuccess(s2, txn);
    DetachedPayout(s2, txn, true, GatewaySuccess);
  }

  lemma NoNewLine(s: State, dueId: Id, tenantId: Id)
    requires InitiatePayment(s, dueId, tenantId).result.Ok? && !OnPaymentLine(s, dueId)
    ensures !OnPaymentLine(InitiatePayment(s, dueId, tenantId).db, dueId)
    ensures forall ownerId, propertyId ::
              Owns(InitiatePayment(s, dueId, tenantId).db, ownerId, propertyId) <==> Owns(s, ownerId, propertyId)
  {
  }

  lemma DeletedRows(s: State, dueId: Id, ownerId: Id, txn: Id)
    requires DeleteDue(s, dueId, ownerId).result.Ok? && txn in s.transactions
    requires s.transactions[txn].dueId == Some(dueId) && s.transactions[txn].lines == []
    ensures var s' := DeleteDue(s, dueId, ownerId).db;
            && txn in s'.transactions && s'.transactions[txn] == s.transactions[txn].(dueId := None)
            && s'.payments == s.payments && s'.gateways == s.gateways
  {
    hide Referenced, Owns;
  }

  // --------------------------------------------------------------------- arrivals

  /** The totals of a tenancy's dues. */
  function Charges(dues: Dues, t: Id): map<Id, Money> {
    map d | d in dues && dues[d].tenancyId == t :: dues[d].total
  }

  /** An unpaid due that asks the tenancy for an amount. */
  function FreshDue(t: Id, propertyId: Id, dueType: DueType, month: Month, amount: int): Due {
    Due(t, propertyId, dueType, month, amount as real, 0.0, amount as real, Unpaid)
  }

  /**
   Exactly one rent due, over the rounded-up prorated rent, and exactly one deposit due, over the rounded-up deposit, if
   that is positive, have been added.
   */
  ghost predicate ChargedOnce(dues: Dues, dues': Dues, r: Onboarding, t: Id, month: Month) {
    var rent, deposit := Ceil(ProratedRent(r.joinDate, r.rentCycleDay, r.rentAmount)), Ceil(r.securityDeposit);
    exists a, b :: && a !in dues && b !in dues && a != b
                   && dues' == (if deposit > 0
                                then dues[a := FreshDue(t, r.propertyId, Rent, month, rent)]
                                         [b := FreshDue(t, r.propertyId, SecurityDeposit, month, deposit)]
                                else dues[a := FreshDue(t, r.propertyId, Rent, month, rent)])
  }

  lemma InsertedOne(s: State, d: Due)
    ensures InsertDues(s, [d]) == InsertDue(s, d)
  {
    var before := [d][..0];
    assert InsertDues(s, before) == s;
  }

  lemma InsertedTwo(s: State, d: Due, e: Due)
    ensures InsertDues(s, [d, e]) == InsertDue(InsertDues(s, [d]), e)
  {
    var both := [d, e];
    assert both[..|both| - 1] == [d];
    hide InsertDue;
  }

  lemma FirstDuesAre(r: Onboarding, t: Id, month: Month)
    ensures var rent, deposit := Ceil(ProratedRent(r.joinDate, r.rentCycleDay, r.rentAmount)), Ceil(r.securityDeposit);
            var rentDue := FreshDue(t, r.propertyId, Rent, month, rent);
            var depositDue := FreshDue(t, r.propertyId, SecurityDeposit, month, deposit);
            FirstDues(r, t, month) == if deposit > 0 then [rentDue, depositDue] else [rentDue]
  {
    hide ProratedRent, Ceil;
  }

  lemma FirstDuesOnce(s: State, r: Onboarding, t: Id, month: Month)
    requires s.nextId !in s.dues && s.nextId + 1 !in s.dues
    ensures ChargedOnce(s.dues, InsertDues(s, FirstDues(r, t, month)).dues, r, t, month)
  {
    hide ProratedRent, Ceil, FirstDues, FreshDue, InsertDues;
    var rent, deposit := Ceil(ProratedRent(r.joinDate, r.rentCycleDay, r.rentAmount)), Ceil(r.securityDeposit);
    var rentDue := FreshDue(t, r.propertyId, Rent, month, rent);
    FirstDuesAre(r, t, month);
    InsertedOne(s, rentDue);
    InsertedTwo(s, rentDue, FreshDue(t, r.propertyId, SecurityDeposit, month, deposit));
    assert s.nextId !in s.dues && s.nextId + 1 !in s.dues && s.nextId != s.nextId + 1;
  }

  /** The bed taken, the row created and the money charged by a successful onboarding. */
  ghost predicate Charged(s: State, r: Onboarding, today: Time, month: Month, reply: Reply<Id>) {
    var s' := reply.db;
    && reply.result.Ok?
    && var t := reply.result.value;
    && t !in s.tenancies && t in s'.tenancies
    && s'.tenancies[t].roomId == r.roomId && s'.tenancies[t].propertyId == r.propertyId
    && s'.tenancies[t].tenantId == (if r.tenantId.Some? then r.tenantId.value else s.nextId)
    && s'.tenancies[t].status == (if r.joinDate > today then Pending else Active)
    && s'.tenancies[t].joinedAt == r.joinDate && s'.tenancies[t].leftAt.None? && s'.tenancies[t].deletedAt.None?
    && s'.tenancies[t].nextBillingDate == Some(GetFirstCycleEnd(r.joinDate, r.rentCycleDay))
    && r.roomId in s.rooms && s'.rooms == AddBeds(s.rooms, r.roomId, 1)
    && Total(Charges(s'.dues, t))
       == FirstRentCharge(r.joinDate, r.rentCycleDay, r.rentAmount) as real + Ceil(r.securityDeposit) as real
    && ChargedOnce(s.dues, s'.dues, r, t, month)
  }

  /**
   Onboarding takes one bed of the requested room and charges the new tenancy the first rent and the deposit, each
   rounded up, and nothing else; the tenancy is pending exactly if the joining date lies ahead.
   */
  lemma OnboardingCharges(s: State, r: Onboarding, today: Time, month: Month)
    requires Inv(s) && CreateTenant(s, r, today, month).result.Ok?
    ensures Charged(s, r, today, month, CreateTenant(s, r, today, month))
  {
    hide Inv, OnboardCommit, CreateTenant, Charged;
    AdmittedRequest(s, r, today, month);
    CommitCharges(s, r, today, month);
  }

  /** An admitted request is valid, for a room of the owner, and its transaction is what happens. */
  lemma AdmittedRequest(s: State, r: Onboarding, today: Time, month: Month)
    requires CreateTenant(s, r, today, month).result.Ok?
    ensures ValidRequest(r) && Owns(s, r.ownerId, r.propertyId)
    ensures r.roomId in s.rooms && s.rooms[r.roomId].propertyId == r.propertyId
    ensures CreateTenant(s, r, today, month) == OnboardCommit(s, r, today, month)
  {
    hide OnboardCommit, Blocked;
  }

  lemma CommitCharges(s: State, r: Onboarding, today: Time, month: Month)
    requires Inv(s) && ValidRequest(r) && OnboardCommit(s, r, today, month).result.Ok?
    requires s.rooms[r.roomId].propertyId == r.propertyId
    ensures Charged(s, r, today, month, OnboardCommit(s, r, today, month))
  {
    hide Inv, InsertDues, OpenTenancy, FirstDues, Addable, FirstRentCharge, GetFirstCycleEnd, Ceil, Total, Charges,
         ChargedOnce;
    ArrivalKeepsInv(s, r, today, month);
    ArrivedRow(s, r, today);
    var arrived := OpenTenancy(s, r, today);
    var t := arrived.nextId - 1;
    FreshDues(arrived);
    NoCharges(s, arrived.dues, t);
    CeilOfNatural(r.securityDeposit);
    FirstDuesCharge(arrived, r, t, month);
    FirstDuesOnce(arrived, r, t, month);
  }

  lemma CeilOfNatural(x: real)
    requires x >= 0.0
    ensures Ceil(x) >= 0
  {
  }

  lemma ArrivedRow(s: State, r: Onboarding, today: Time)
    requires Inv(s) && r.roomId in s.rooms
    ensures var s' := OpenTenancy(s, r, today);
            var t := s'.nextId - 1;
            && t !in s.tenancies && t in s'.tenancies && t >= s.nextId
            && s'.tenancies[t].roomId == r.roomId && s'.tenancies[t].propertyId == r.propertyId
            && s'.tenancies[t].tenantId == (if r.tenantId.Some? then r.tenantId.value else s.nextId)
            && s'.tenancies[t].status == (if r.joinDate > today then Pending else Active)
            && s'.tenancies[t].joinedAt == r.joinDate && s'.tenancies[t].leftAt.None? && s'.tenancies[t].deletedAt.None?
            && s'.tenancies[t].nextBillingDate == Some(GetFirstCycleEnd(r.joinDate, r.rentCycleDay))
            && s'.rooms == AddBeds(s.rooms, r.roomId, 1)
            && s'.dues == s.dues
  {
    hide OccupancyOk, DebtOk, LedgerOk, TransactionsOk, SettledOk, PendingOk, ReadingsOk, AddBeds, GetFirstCycleEnd;
  }

  lemma FreshDues(s: State)
    requires Inv(s)
    ensures s.nextId !in s.dues && s.nextId + 1 !in s.dues
  {
  }

  lemma NoCharges(s: State, dues: Dues, t: Id)
    requires Inv(s) && dues == s.dues && t >= s.nextId
    ensures Charges(dues, t) == map[]
  {
    forall d | d in dues
      ensures dues[d].tenancyId != t
    {
      assert dues[d].tenancyId in s.tenancies;
    }
  }

  lemma ChargeAdded(dues: Dues, d: Id, due: Due, t: Id)
    requires d !in dues && due.tenancyId == t
    ensures Total(Charges(dues[d := due], t)) == Total(Charges(dues, t)) + due.total
  {
    hide Total;
    TotalInsert(Charges(dues, t), d, due.total);
    assert Charges(dues[d := due], t) == Charges(dues, t)[d := due.total];
  }

  lemma FirstDuesCharge(s: State, r: Onboarding, t: Id, month: Month)
    requires Charges(s.dues, t) == map[] && Ceil(r.securityDeposit) >= 0
    requires s.nextId !in s.dues && s.nextId + 1 !in s.dues
    ensures Total(Charges(InsertDues(s, FirstDues(r, t, month)).dues, t))
            == FirstRentCharge(r.joinDate, r.rentCycleDay, r.rentAmount) as real + Ceil(r.securityDeposit) as real
  {
    hide Total, Charges, FirstRentCharge, Ceil;
    var rent, deposit := FirstRentCharge(r.joinDate, r.rentCycleDay, r.rentAmount), Ceil(r.securityDeposit);
    var rentDue := NewDue(t, r.propertyId, Rent, month, rent as real);
    var depositDue := NewDue(t, r.propertyId, SecurityDeposit, month, deposit as real);
    assert [rentDue][..0] == [] && [rentDue, depositDue][..1] == [rentDue];
    assert InsertDues(s, [rentDue]) == InsertDue(s, rentDue);
    EmptyTotal<Id>();
    ChargeAdded(s.dues, s.nextId, rentDue, t);
    if deposit > 0 {
      assert FirstDues(r, t, month) == [rentDue, depositDue];
      ChargeAdded(InsertDue(s, rentDue).dues, s.nextId + 1, depositDue, t);
    } else {
      assert FirstDues(r, t, month) == [rentDue];
    }
  }

  /** A tenant who has just arrived owes the first rent, so the exit is refused until it is dealt with. */
  lemma FreshTenantCannotLeave(s: State, r: Onboarding, today: Time, month: Month, now: Time)
    requires Inv(s) && CreateTenant(s, r, today, month).result.Ok?
    ensures var reply := CreateTenant(s, r, today, month);
            var t := reply.result.value;
            && t in reply.db.tenancies
            && DeleteTenant(reply.db, Some(t), reply.db.tenancies[t].tenantId, r.propertyId, r.ownerId, now)
               == Reply(reply.db, Err(BadRequest))
  {
    hide Inv, InsertDues, OpenTenancy, FirstDues, Addable, OpenDues, AddBeds, ExitCommit;
    OnboardedDues(s, r, today, month);
    var arrived := OpenTenancy(s, r, today);
    var t := arrived.nextId - 1;
    ArrivedTenancyIsExitable(s, r, today, month);
    DuesAreFresh(arrived);
    InsertDuesExact(arrived, FirstDues(r, t, month));
    RentIsFirst(r, t, month);
    OpenRent(InsertDues(arrived, FirstDues(r, t, month)).dues, arrived.nextId, t);
  }

  lemma RentIsFirst(r: Onboarding, t: Id, month: Month)
    ensures var dues := FirstDues(r, t, month);
            |dues| > 0 && dues[0].tenancyId == t && dues[0].status == Unpaid
  {
    hide FirstRentCharge, Ceil;
  }

  lemma OpenRent(dues: Dues, d: Id, t: Id)
    requires d in dues && dues[d].tenancyId == t && dues[d].status == Unpaid
    ensures OpenDues(dues, t) != {}
  {
    assert d in OpenDues(dues, t);
  }

  lemma ArrivedTenancyIsExitable(s: State, r: Onboarding, today: Time, month: Month)
    requires Inv(s) && CreateTenant(s, r, today, month).result.Ok?
    ensures var reply := CreateTenant(s, r, today, month);
            var t := reply.result.value;
            && t == OpenTenancy(s, r, today).nextId - 1 && t in reply.db.tenancies
            && IsTenancyOf(reply.db, t, reply.db.tenancies[t].tenantId, r.propertyId)
            && Owns(reply.db, r.ownerId, r.propertyId)
  {
    hide Inv, InsertDues, FirstDues, AddBeds, GetFirstCycleEnd;
  }
}
