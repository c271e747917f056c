/**
 Re-running electricity billing: what a run leaves behind, what freezes it, and that a completed month
 always shows exactly the bills of its last run.
 */
module BillingSafety {
  import opened Allocation
  import Calendar
  import DueProofs
  import opened DueRules
  import opened ElectricityProofs
  import opened ElectricityRules
  import opened Invariants
  import Numbers
  import opened PaymentProofs
  import opened PaymentRules
  import opened Sums
  import opened System
  import opened Tables
  import opened TenancyProofs
  import opened TenancyRules
  import opened Text

  /** The electricity dues of a month: for each, whom it bills and how much. */
  function BillView(dues: Dues, p: Id, m: Month): map<Id, (Id, Money)> {
    map d | d in dues && IsElectricityDue(dues[d], p, m) :: (dues[d].tenancyId, dues[d].total)
  }

  /** The month's bills, readings and run are as before; payments into the bills may have been made. */
  ghost predicate SameMonth(s: State, s': State, p: Id, m: Month) {
    && BillView(s'.dues, p, m) == BillView(s.dues, p, m)
    && SameReadings(s, s', p, m)
  }

  ghost predicate SameReadings(s: State, s': State, p: Id, m: Month) {
    && ((p, m) in s.runs <==> (p, m) in s'.runs)
    && ((p, m) in s.runs ==> s'.runs[(p, m)] == s.runs[(p, m)])
    && ((p, m) in s.mainReadings <==> (p, m) in s'.mainReadings)
    && ((p, m) in s.mainReadings ==> s'.mainReadings[(p, m)] == s.mainReadings[(p, m)])
    && ReadingByRoom(s', p, m) == ReadingByRoom(s, p, m)
  }

  lemma SameMonthReflexive(s: State, p: Id, m: Month)
    ensures SameMonth(s, s, p, m)
  {
  }

  lemma SameMonthTransitive(a: State, b: State, c: State, p: Id, m: Month)
    requires SameMonth(a, b, p, m) && SameMonth(b, c, p, m)
    ensures SameMonth(a, c, p, m)
  {
  }

  // ------------------------------------------------------------ what a run leaves

  /** The bill view of a month right after a run with these bills, whose first due got id first. */
  ghost predicate ShowsBills(dues: Dues, p: Id, m: Month, first: Id, bills: seq<Allocation>) {
    var view := BillView(dues, p, m);
    && (forall d :: d in view <==> first <= d < first + |bills|)
    && (forall k :: 0 <= k < |bills| ==>
          first + k in view && view[first + k] == (bills[k].tenancyId, bills[k].amount as real))
  }

  /** No electricity due of the month survives the clearing step of a run. */
  lemma ClearedMonthIsEmpty(s: State, p: Id, m: Month)
    requires Inv(s) && !ElectricityCollected(s, p, m)
    ensures forall d :: d in RemoveDues(s, ReplacedDues(s, p, m)).dues ==> !IsElectricityDue(s.dues[d], p, m)
  {
    hide PaidInto, FreshIds, OccupancyOk, DebtOk, TransactionsOk, SettledOk, PendingOk, ReadingsOk;
    forall d | d in s.dues && IsElectricityDue(s.dues[d], p, m)
      ensures d in ReplacedDues(s, p, m)
    {
      assert DueOk(s.dues[d], PaidInto(s.payments, d));
    }
  }

  /** A run that goes through leaves exactly one electricity due for each of its bills, and no other. */
  lemma RunLeavesItsBills(s: State, p: Id, m: Month, order: seq<Id>, roomOrder: seq<Id>)
    requires Inv(s) && QueryOrders(s, p, order, roomOrder)
    requires RunBilling(s, p, m, order, roomOrder).result.Ok? && !IsCompleted(s, p, m)
    ensures var reply := RunBilling(s, p, m, order, roomOrder);
            && reply.result.value.Some?
            && ShowsBills(reply.db.dues, p, m, s.nextId, reply.result.value.value)
            && IsCompleted(reply.db, p, m)
  {
    hide Inv, RunBilling, Allocations, Addable, ReplacedDues, RemoveDues, InsertDues, ElectricityCollected, ShowsBills,
         RunInputs, QueryOrders;
    var reply := RunBilling(s, p, m, order, roomOrder);
    RunBillingIs(s, p, m, order, roomOrder);
    ClearedMonthIsEmpty(s, p, m);
    ClearedDues(s, ReplacedDues(s, p, m));
    var cleared, bills := RemoveDues(s, ReplacedDues(s, p, m)), reply.result.value.value;
    DuesAreFresh(cleared);
    InsertDuesExact(cleared, BillDues(bills, m));
    var after := InsertDues(cleared, BillDues(bills, m));
    forall k | 0 <= k < |bills|
      ensures after.dues[cleared.nextId + k] == BillDue(bills[k], m)
    {
      assert BillDues(bills, m)[k] == BillDue(bills[k], m);
    }
    BillsShown(cleared, after, p, m, bills);
  }

  lemma ClearedDues(s: State, gone: set<Id>)
    ensures RemoveDues(s, gone).nextId == s.nextId
    ensures forall d :: d in RemoveDues(s, gone).dues ==> d in s.dues && RemoveDues(s, gone).dues[d] == s.dues[d]
  {
  }

  lemma BillsShown(cleared: State, after: State, p: Id, m: Month, bills: seq<Allocation>)
    requires forall d :: d in cleared.dues ==> !IsElectricityDue(cleared.dues[d], p, m)
    requires forall i :: 0 <= i < |bills| ==> bills[i].propertyId == p
    requires forall d :: d in after.dues <==> d in cleared.dues || cleared.nextId <= d < cleared.nextId + |bills|
    requires forall d :: d in cleared.dues ==> after.dues[d] == cleared.dues[d]
    requires forall k :: 0 <= k < |bills| ==> after.dues[cleared.nextId + k] == BillDue(bills[k], m)
    ensures ShowsBills(after.dues, p, m, cleared.nextId, bills)
  {
    var first := cleared.nextId;
    forall d
      ensures d in BillView(after.dues, p, m) <==> first <= d < first + |bills|
    {
      if first <= d < first + |bills| {
        assert after.dues[first + (d - first)] == BillDue(bills[d - first], m);
      }
    }
  }

  // ------------------------------------------------------- refused and repeated runs

  /** A repeated run of a completed month is a no-op. */
  lemma RepeatedRunIsNoOp(s: State, p: Id, m: Month, order: seq<Id>, roomOrder: seq<Id>)
    requires QueryOrders(s, p, order, roomOrder) && IsCompleted(s, p, m)
    ensures RunBilling(s, p, m, order, roomOrder).db == s
    ensures p in s.owners ==> RunBilling(s, p, m, order, roomOrder).result == Ok(None)
  {
    hide Allocations;
  }

  /** Once a due of the month is collected, neither a run nor a submission changes anything. */
  lemma CollectedMonthIsClosed(s: State, p: Id, m: Month, order: seq<Id>, roomOrder: seq<Id>, ownerId: Id,
          x: Submission, now: Month)
    requires ElectricityCollected(s, p, m) && x.month == m && QueryOrders(s, p, order, roomOrder)
    ensures RunBilling(s, p, m, order, roomOrder).db == s
    ensures SubmitAllReadings(s, p, ownerId, x, now)
        == Reply(s, Err(if Owns(s, ownerId, p) then BadRequest else NotFound))
  {
    hide Allocations, RunInputs, RunnableReadings;
  }

  // ----------------------------------------------------- steps that leave a month alone

  /**
   The step neither adds, edits, deletes nor moves an electricity due of the month. Billing runs and reading
   submissions are not restricted, nor is any payment.
   */
  ghost predicate Undisturbing(s: State, step: Step, p: Id, m: Month) {
    match step
    case DoAddDue(_, _, propertyId, dueType, _, month) => !(dueType == Electricity && propertyId == p && month == m)
    case DoAddRoomDue(_, _, propertyId, dueType, _, month) => !(dueType == Electricity && propertyId == p && month == m)
    case DoCreateDue(_, _, propertyId, _, dueType, _, month) =>
      !(dueType == Electricity && propertyId == p && month == m)
    case DoDeleteDue(d, _) => d in s.dues ==> !IsElectricityDue(s.dues[d], p, m)
    case DoEditDue(d, edit, ownerId) =>
      d in s.dues ==> !IsElectricityDue(s.dues[d], p, m)
                      && (d in EditDue(s, d, edit, ownerId).db.dues ==>
                          !IsElectricityDue(EditDue(s, d, edit, ownerId).db.dues[d], p, m))
    case DoShift(t, room, property, ownerId) =>
      var plan := ShiftPreflight(s, t, room, property, ownerId);
      plan.Ok? && plan.value.newProperty != plan.value.oldProperty
          && (plan.value.newProperty == p || plan.value.oldProperty == p) ==>
        forall d :: d in OpenDues(s.dues, t) ==> !(s.dues[d].dueType == Electricity && s.dues[d].month == m)
    case _ => true
  }

  lemma InsertDueMonth(s: State, due: Due, p: Id, m: Month)
    requires Inv(s) && !IsElectricityDue(due, p, m)
    ensures SameMonth(s, InsertDue(s, due), p, m)
  {
    assert s.nextId !in s.dues;
  }

  lemma {:induction false} InsertDuesMonth(s: State, dues: seq<Due>, p: Id, m: Month)
    requires Inv(s)
    requires forall i :: 0 <= i < |dues| ==> Addable(s, dues[i]) && !IsElectricityDue(dues[i], p, m)
    ensures SameMonth(s, InsertDues(s, dues), p, m)
    decreases |dues|
  {
    hide Inv, SameMonth, Addable, InsertDue;
    if dues == [] {
      SameMonthReflexive(s, p, m);
    } else {
      var front := dues[..|dues| - 1];
      InsertDuesMonth(s, front, p, m);
      InsertDuesKeeps(s, front);
      InsertDueMonth(InsertDues(s, front), dues[|dues| - 1], p, m);
      SameMonthTransitive(s, InsertDues(s, front), InsertDues(s, dues), p, m);
    }
  }

  lemma RecordPaymentMonth(s: State, dueId: Id, amount: Money, p: Id, m: Month)
    requires dueId in s.dues
    ensures SameMonth(s, RecordPayment(s, dueId, s.dues[dueId], amount), p, m)
  {
    var s' := RecordPayment(s, dueId, s.dues[dueId], amount);
    forall d
      ensures d in BillView(s'.dues, p, m) <==> d in BillView(s.dues, p, m)
    {
    }
  }

  lemma {:induction false} PayLinesMonth(s: State, lines: seq<Line>, p: Id, m: Month)
    requires DistinctDues(lines)
    requires forall i :: 0 <= i < |lines| ==> lines[i].dueId in s.dues
    ensures SameMonth(s, PayLines(s, s.dues, lines), p, m)
    decreases |lines|
  {
    hide SameMonth, RecordPayment;
    if lines == [] {
      SameMonthReflexive(s, p, m);
    } else {
      var front, line := lines[..|lines| - 1], lines[|lines| - 1];
      PayLinesMonth(s, front, p, m);
      UntouchedByLines(s, s.dues, front, line.dueId);
      var before := PayLines(s, s.dues, front);
      if s.dues[line.dueId].status != Paid {
        RecordPaymentMonth(before, line.dueId, line.amount, p, m);
        SameMonthTransitive(s, before, PayLines(s, s.dues, lines), p, m);
      }
    }
  }

  /** Same dues, readings and runs. */
  lemma UntouchedMonth(s: State, s': State, p: Id, m: Month)
    requires s'.dues == s.dues && s'.runs == s.runs && s'.mainReadings == s.mainReadings
        && s'.roomReadings == s.roomReadings
    ensures SameMonth(s, s', p, m)
  {
  }

  lemma SettledMonth(s: State, paid: State, s': State, p: Id, m: Month)
    requires SameMonth(s, paid, p, m)
    requires s'.dues == paid.dues && s'.runs == paid.runs && s'.mainReadings == paid.mainReadings
        && s'.roomReadings == paid.roomReadings
    ensures SameMonth(s, s', p, m)
  {
  }

  lemma PaidDuesMonth(s: State, txn: Id, p: Id, m: Month)
    requires Inv(s) && txn in s.transactions
    ensures SameMonth(s, PaidDues(s, txn), p, m)
  {
    hide FreshIds, OccupancyOk, DebtOk, LedgerOk, SettledOk, PendingOk, ReadingsOk, LineTotal, SameMonth;
    var t := s.transactions[txn];
    assert TransactionOk(s.dues, t);
    SameMonthReflexive(s, p, m);
    if t.dueId.Some? {
      RecordPaymentMonth(s, t.dueId.value, t.amount, p, m);
    } else {
      PayLinesMonth(s, t.lines, p, m);
    }
  }

  lemma WebhookMonth(s: State, txn: Id, hashValid: bool, status: GatewayStatus, p: Id, m: Month)
    requires Inv(s)
    ensures SameMonth(s, HandleWebhook(s, txn, hashValid, status).db, p, m)
  {
    hide Inv, SameMonth, PaidDues, HandleWebhook, PaysOut;
    var s' := HandleWebhook(s, txn, hashValid, status).db;
    SameMonthReflexive(s, p, m);
    if PaysOut(s, txn, hashValid, status) {
      PayoutMonth(s, txn, hashValid, status, p, m);
    } else if txn in s.transactions {
      MarkedOnly(s, txn, hashValid, status);
      UntouchedMonth(s, s', p, m);
    } else {
      UnknownDelivery(s, txn, hashValid, status);
    }
  }

  lemma PayoutMonth(s: State, txn: Id, hashValid: bool, status: GatewayStatus, p: Id, m: Month)
    requires Inv(s) && PaysOut(s, txn, hashValid, status)
    ensures SameMonth(s, HandleWebhook(s, txn, hashValid, status).db, p, m)
  {
    hide Inv, SameMonth, PaidDues, ProcessSuccessfulPayment, HandleWebhook;
    var s' := HandleWebhook(s, txn, hashValid, status).db;
    if Detached(s.transactions[txn]) {
      DetachedPayout(s, txn, hashValid, status);
      UntouchedMonth(s, s', p, m);
    } else {
      WebhookPays(s, txn, hashValid, status);
      PaidDuesMonth(s, txn, p, m);
      SettledMonth(s, PaidDues(s, txn), s', p, m);
    }
  }

  lemma RemoveDuesMonth(s: State, gone: set<Id>, p: Id, m: Month)
    requires forall d :: d in gone ==> d in s.dues && !IsElectricityDue(s.dues[d], p, m)
    ensures SameMonth(s, RemoveDues(s, gone), p, m)
  {
    hide IsElectricityDue;
    var before, after := BillView(s.dues, p, m), BillView(RemoveDues(s, gone).dues, p, m);
    forall d
      ensures d in before <==> d in after
      ensures d in before ==> after[d] == before[d]
    {
    }
    assert after == before;
  }

  lemma ReplaceDueMonth(s: State, dueId: Id, due: Due, p: Id, m: Month)
    requires dueId in s.dues && !IsElectricityDue(s.dues[dueId], p, m) && !IsElectricityDue(due, p, m)
    ensures SameMonth(s, s.(dues := s.dues[dueId := due]), p, m)
  {
  }

  lemma ReassignMonth(s: State, s': State, t: Id, from: Id, to: Id, p: Id, m: Month)
    requires s'.dues == Reassign(s.dues, OpenDues(s.dues, t), to)
    requires s'.runs == s.runs && s'.mainReadings == s.mainReadings && s'.roomReadings == s.roomReadings
    requires forall d :: d in OpenDues(s.dues, t) ==> s.dues[d].propertyId == from
    requires to == p || from == p ==>
               forall d :: d in OpenDues(s.dues, t) ==> !(s.dues[d].dueType == Electricity && s.dues[d].month == m)
    ensures SameMonth(s, s', p, m)
  {
    forall d
      ensures d in BillView(s'.dues, p, m) <==> d in BillView(s.dues, p, m)
    {
    }
  }

  lemma ShiftMonth(s: State, t: Id, room: Id, property: Option<Id>, ownerId: Id, p: Id, m: Month)
    requires Inv(s) && Undisturbing(s, DoShift(t, room, property, ownerId), p, m)
    ensures SameMonth(s, ShiftTenantRoom(s, t, room, property, ownerId).db, p, m)
  {
    hide Inv, ShiftCommit, SameMonth, OpenDues;
    SameMonthReflexive(s, p, m);
    var plan := ShiftPreflight(s, t, room, property, ownerId);
    if plan.Ok? {
      OpenDuesAtHome(s, t);
      ShiftedMonth(s, plan.value, p, m);
    }
  }

  lemma ShiftedMonth(s: State, plan: ShiftPlan, p: Id, m: Month)
    requires forall d :: d in OpenDues(s.dues, plan.tenancyId) ==> s.dues[d].propertyId == plan.oldProperty
    requires plan.newProperty != plan.oldProperty && (plan.newProperty == p || plan.oldProperty == p) ==>
               forall d :: d in OpenDues(s.dues, plan.tenancyId) ==>
                   !(s.dues[d].dueType == Electricity && s.dues[d].month == m)
    ensures SameMonth(s, ShiftCommit(s, plan).db, p, m)
  {
    hide SameMonth, ShiftCommit, Reassign, OpenDues, MoveInside, MoveAcross;
    var s' := ShiftCommit(s, plan).db;
    if ShiftCommit(s, plan).result.Err? {
      ShiftRefused(s, plan);
      SameMonthReflexive(s, p, m);
    } else if plan.newProperty == plan.oldProperty {
      ShiftedInside(s, plan);
      InsideFrame(s, plan);
      UntouchedMonth(s, s', p, m);
    } else {
      ShiftedAcross(s, plan);
      AcrossFrame(s, plan);
      ReassignMonth(s, s', plan.tenancyId, plan.oldProperty, plan.newProperty, p, m);
    }
  }

  lemma OnboardMonth(s: State, r: Onboarding, today: Calendar.Time, month: Month, p: Id, m: Month)
    requires Inv(s)
    ensures SameMonth(s, CreateTenant(s, r, today, month).db, p, m)
  {
    hide Inv, InsertDues, OpenTenancy, SameMonth, Addable;
    SameMonthReflexive(s, p, m);
    if CreateTenant(s, r, today, month).result.Ok? {
      OnboardedDues(s, r, today, month);
      var arrived := OpenTenancy(s, r, today);
      InsertDuesMonth(arrived, FirstDues(r, arrived.nextId - 1, month), p, m);
      ArrivalMonth(s, r, today, p, m);
      SameMonthTransitive(s, arrived, InsertDues(arrived, FirstDues(r, arrived.nextId - 1, month)), p, m);
    }
  }

  lemma ArrivalMonth(s: State, r: Onboarding, today: Calendar.Time, p: Id, m: Month)
    requires r.roomId in s.rooms
    ensures SameMonth(s, OpenTenancy(s, r, today), p, m)
  {
    hide SameMonth;
    UntouchedMonth(s, OpenTenancy(s, r, today), p, m);
  }

  lemma AddRoomDueMonth(s: State, step: Step, p: Id, m: Month)
    requires Inv(s) && step.DoAddRoomDue? && Allowed(s, step) && Undisturbing(s, step, p, m)
    ensures SameMonth(s, Apply(s, step), p, m)
  {
    hide Inv, InsertDues, SameMonth, Addable, ShareOf;
    SameMonthReflexive(s, p, m);
    var DoAddRoomDue(order, roomId, propertyId, dueType, amount, month) := step;
    if AddDueToRoom(s, order, roomId, propertyId, dueType, amount, month).result.Ok? {
      DueProofs.RoomDuesAddable(s, order, roomId, propertyId, dueType, amount, month);
      InsertDuesMonth(s, RoomDues(order, propertyId, dueType, month, ShareOf(amount, |order|) as real),
          p, m);
    }
  }

  lemma AddedDueMonth(s: State, step: Step, p: Id, m: Month)
    requires Inv(s) && (step.DoAddDue? || step.DoCreateDue?) && Allowed(s, step) && Undisturbing(s, step, p, m)
    ensures SameMonth(s, Apply(s, step), p, m)
  {
    hide Inv, InsertDue, SameMonth, Numbers.Ceil;
    SameMonthReflexive(s, p, m);
    forall due: Due | !IsElectricityDue(due, p, m)
      ensures SameMonth(s, InsertDue(s, due), p, m)
    {
      InsertDueMonth(s, due, p, m);
    }
  }

  lemma DeleteMonth(s: State, d: Id, ownerId: Id, p: Id, m: Month)
    requires Undisturbing(s, DoDeleteDue(d, ownerId), p, m)
    ensures SameMonth(s, DeleteDue(s, d, ownerId).db, p, m)
  {
    hide SameMonth, RemoveDues, Referenced;
    SameMonthReflexive(s, p, m);
    if DeleteDue(s, d, ownerId).result.Ok? {
      RemoveDuesMonth(s, {d}, p, m);
    }
  }

  lemma EditMonth(s: State, d: Id, edit: DueEdit, ownerId: Id, p: Id, m: Month)
    requires Undisturbing(s, DoEditDue(d, edit, ownerId), p, m)
    ensures SameMonth(s, EditDue(s, d, edit, ownerId).db, p, m)
  {
    hide SameMonth;
    SameMonthReflexive(s, p, m);
    if EditDue(s, d, edit, ownerId).result.Ok? {
      ReplaceDueMonth(s, d, EditDue(s, d, edit, ownerId).db.dues[d], p, m);
    }
  }

  lemma CollectMonth(s: State, d: Id, amount: real, p: Id, m: Month)
    ensures SameMonth(s, CollectDue(s, d, amount).db, p, m)
  {
    hide SameMonth, RecordPayment, Numbers.Ceil;
    SameMonthReflexive(s, p, m);
    if CollectDue(s, d, amount).result.Ok? {
      RecordPaymentMonth(s, d, Numbers.Ceil(amount) as real, p, m);
    }
  }

  lemma InitiationMonth(s: State, d: Id, tenantId: Id, amount: real, lines: seq<Line>, propertyId: Id, p: Id, m: Month)
    ensures SameMonth(s, InitiatePayment(s, d, tenantId).db, p, m)
    ensures SameMonth(s, MakePayment(s, tenantId, amount, lines, propertyId).db, p, m)
  {
    hide SameMonth, InitiatePayment, MakePayment;
    UntouchedMonth(s, InitiatePayment(s, d, tenantId).db, p, m);
    UntouchedMonth(s, MakePayment(s, tenantId, amount, lines, propertyId).db, p, m);
  }

  /** Submitting readings of another month or property. */
  lemma OtherSubmissionMonth(s: State, propertyId: Id, ownerId: Id, x: Submission, now: Month, p: Id, m: Month)
    requires Inv(s) && (propertyId, x.month) != (p, m)
    ensures SameMonth(s, SubmitAllReadings(s, propertyId, ownerId, x, now).db, p, m)
  {
    hide FreshIds, OccupancyOk, DebtOk, LedgerOk, TransactionsOk, SettledOk, PendingOk, ReadingsOk, AcceptsReadings,
         StoreRooms, RoomUnits, ReadingByRoom, BillView;
    if SubmitAllReadings(s, propertyId, ownerId, x, now).result.Ok? {
      OtherReadings(s, propertyId, x, now, p, m);
    }
  }

  /** Billing another month or property. */
  lemma OtherRunMonth(s: State, propertyId: Id, month: Month, order: seq<Id>, roomOrder: seq<Id>, p: Id, m: Month)
    requires Inv(s) && QueryOrders(s, propertyId, order, roomOrder) && (propertyId, month) != (p, m)
    ensures SameMonth(s, RunBilling(s, propertyId, month, order, roomOrder).db, p, m)
  {
    hide Inv, RunBilling, InsertDues, RemoveDues, Addable, SameMonth, Allocations;
    SameMonthReflexive(s, p, m);
    var reply := RunBilling(s, propertyId, month, order, roomOrder);
    if reply.result.Ok? && !IsCompleted(s, propertyId, month) {
      RunBillingIs(s, propertyId, month, order, roomOrder);
      var gone := ReplacedDues(s, propertyId, month);
      var cleared := RemoveDues(s, gone);
      var dues := BillDues(reply.result.value.value, month);
      RemoveDuesMonth(s, gone, p, m);
      InsertDuesMonth(cleared, dues, p, m);
      SameMonthTransitive(s, cleared, InsertDues(cleared, dues), p, m);
      OtherRunRow(s, InsertDues(cleared, dues), reply.db, (propertyId, month), p, m);
      RunsOfCleared(s, gone, dues);
    } else {
      RefusedRun(s, propertyId, month, order, roomOrder);
    }
  }

  lemma RunsOfCleared(s: State, gone: set<Id>, dues: seq<Due>)
    ensures InsertDues(RemoveDues(s, gone), dues).runs == s.runs
  {
    InsertDuesRuns(RemoveDues(s, gone), dues);
  }

  lemma {:induction false} InsertDuesRuns(s: State, dues: seq<Due>)
    ensures InsertDues(s, dues).runs == s.runs
  {
    if dues != [] {
      InsertDuesRuns(s, dues[..|dues| - 1]);
    }
  }

  lemma OtherRunRow(s: State, billed: State, s': State, key: (Id, Month), p: Id, m: Month)
    requires SameMonth(s, billed, p, m) && key != (p, m)
    requires key in s'.runs && s' == billed.(runs := s'.runs) && s'.runs == s.runs[key := s'.runs[key]]
    ensures SameMonth(s, s', p, m)
  {
    hide BillView, ReadingByRoom;
    assert ReadingByRoom(s', p, m) == ReadingByRoom(billed, p, m) by { SameStored(billed, s', p, m); }
  }

  lemma SameStored(s: State, s': State, p: Id, m: Month)
    requires s'.roomReadings == s.roomReadings
    ensures ReadingByRoom(s', p, m) == ReadingByRoom(s, p, m)
  {
  }

  /** The step is a billing run or a submission for this very month. */
  predicate Targets(step: Step, p: Id, m: Month) {
    match step
    case DoSubmitReadings(propertyId, _, x, _) => propertyId == p && x.month == m
    case DoRunBilling(propertyId, month, _, _) => propertyId == p && month == m
    case _ => false
  }

  /** Exits, returns and status changes write nothing of any month. */
  lemma StatusStepRows(s: State, step: Step)
    requires Inv(s) && Allowed(s, step) && OnTenancies(step) && !step.DoCreateTenant? && !step.DoShift?
    ensures var s' := Apply(s, step);
            && s'.dues == s.dues && s'.runs == s.runs && s'.mainReadings == s.mainReadings
            && s'.roomReadings == s.roomReadings
  {
    hide Inv, DeleteTenant, RevokeTenancyExit, ReActiveTenancy, PutOnNoticePeriod, CancelNoticePeriod, ApproveMoveOut,
         ConfirmMoveIn, UpdateTenancyDetails;
  }

  lemma TenancyStepLeavesMonth(s: State, step: Step, p: Id, m: Month)
    requires Inv(s) && Allowed(s, step) && Undisturbing(s, step, p, m) && OnTenancies(step)
    ensures SameMonth(s, Apply(s, step), p, m)
  {
    hide Inv, SameMonth, Undisturbing, CreateTenant, ShiftTenantRoom;
    if step.DoCreateTenant? {
      OnboardMonth(s, step.onboarding, step.today, step.month, p, m);
    } else if step.DoShift? {
      ShiftMonth(s, step.tenancyId, step.newRoom, step.newProperty, step.ownerId, p, m);
    } else {
      hide Apply;
      StatusStepRows(s, step);
      UntouchedMonth(s, Apply(s, step), p, m);
    }
  }

  lemma MoneyStepLeavesMonth(s: State, step: Step, p: Id, m: Month)
    requires Inv(s) && Allowed(s, step) && Undisturbing(s, step, p, m) && !Targets(step, p, m) && !OnTenancies(step)
    ensures SameMonth(s, Apply(s, step), p, m)
  {
    hide Inv, SameMonth, Undisturbing, AddDueToTenant, AddDueToRoom, CreateDueForTenant, DeleteDue, EditDue, CollectDue,
         InitiatePayment, MakePayment, HandleWebhook, SubmitAllReadings, RunBilling;
    match step
    case DoAddRoomDue(_, _, _, _, _, _) => AddRoomDueMonth(s, step, p, m);
    case DoAddDue(_, _, _, _, _, _) => AddedDueMonth(s, step, p, m);
    case DoCreateDue(_, _, _, _, _, _, _) => AddedDueMonth(s, step, p, m);
    case DoDeleteDue(d, owner) => DeleteMonth(s, d, owner, p, m);
    case DoEditDue(d, edit, owner) => EditMonth(s, d, edit, owner, p, m);
    case DoCollect(d, amount) => CollectMonth(s, d, amount, p, m);
    case DoInitiatePayment(d, tenant) => InitiationMonth(s, d, tenant, 0.0, [], 0, p, m);
    case DoMakePayment(tenant, amount, lines, property) => InitiationMonth(s, 0, tenant, amount, lines, property, p, m);
    case DoWebhook(txn, hashValid, status) => WebhookMonth(s, txn, hashValid, status, p, m);
    case DoSubmitReadings(property, owner, x, now) => OtherSubmissionMonth(s, property, owner, x, now, p, m);
    case DoRunBilling(property, month, order, roomOrder) => OtherRunMonth(s, property, month, order, roomOrder, p, m);
  }

  lemma StepLeavesMonth(s: State, step: Step, p: Id, m: Month)
    requires Inv(s) && Allowed(s, step) && Undisturbing(s, step, p, m) && !Targets(step, p, m)
    ensures SameMonth(s, Apply(s, step), p, m)
  {
    hide Inv, Apply, Allowed, SameMonth, Undisturbing, Targets;
    if OnTenancies(step) {
      TenancyStepLeavesMonth(s, step, p, m);
    } else {
      MoneyStepLeavesMonth(s, step, p, m);
    }
  }

  // ------------------------------------------------------------------- whole runs

  /** A started due of the month stays a started due of the month. */
  lemma CollectedStays(s: State, s': State, p: Id, m: Month)
    requires ElectricityCollected(s, p, m) && Progress(s, s') && SameMonth(s, s', p, m)
    ensures ElectricityCollected(s', p, m)
  {
    var d :| d in s.dues && IsElectricityDue(s.dues[d], p, m) && Started(s.dues[d].status);
    assert d in BillView(s'.dues, p, m);
  }

  /**
   From the moment one of the month's dues is partly or fully paid, no step of any run changes the month's
   readings, run or bills, as long as nobody edits, deletes, adds or moves its electricity dues by hand.
   */
  lemma {:induction false} CollectedMonthIsFrozen(states: seq<State>, steps: seq<Step>, p: Id, m: Month)
    requires IsRun(states, steps) && Inv(states[0])
    requires ElectricityCollected(states[0], p, m)
    requires forall i :: 0 <= i < |steps| ==> Undisturbing(states[i], steps[i], p, m)
    ensures SameMonth(states[0], states[|steps|], p, m) && ElectricityCollected(states[|steps|], p, m)
    decreases |steps|
  {
    hide Inv, Apply, Allowed, Undisturbing, SameMonth, ElectricityCollected, Progress;
    if steps == [] {
      SameMonthReflexive(states[0], p, m);
    } else {
      var n := |steps| - 1;
      RunsKeepInv(states, steps);
      CollectedMonthIsFrozen(states[..n + 1], steps[..n], p, m);
      CollectedStep(states[n], steps[n], p, m);
      SameMonthTransitive(states[0], states[n], states[n + 1], p, m);
    }
  }

  lemma CollectedStep(s: State, step: Step, p: Id, m: Month)
    requires Inv(s) && Allowed(s, step) && Undisturbing(s, step, p, m) && ElectricityCollected(s, p, m)
    ensures SameMonth(s, Apply(s, step), p, m) && ElectricityCollected(Apply(s, step), p, m)
  {
    hide Inv, SameMonth, Undisturbing, ElectricityCollected, Progress, QueryOrders, AcceptsReadings, StoreReadings,
         Allocations;
    StepProgress(s, step);
    if Targets(step, p, m) {
      SameMonthReflexive(s, p, m);
      TargetRefused(s, step, p, m);
    } else {
      StepLeavesMonth(s, step, p, m);
      CollectedStays(s, Apply(s, step), p, m);
    }
  }

  lemma TargetRefused(s: State, step: Step, p: Id, m: Month)
    requires Allowed(s, step) && Targets(step, p, m) && ElectricityCollected(s, p, m)
    ensures Apply(s, step) == s
  {
    hide ElectricityCollected, QueryOrders, StoreReadings, Allocations, RunInputs, RunnableReadings, ValidSubmission,
         Continues;
  }

  /** The step is a run of the month that went through and billed something afresh. */
  ghost predicate BillsAfresh(s: State, step: Step, p: Id, m: Month) {
    && step.DoRunBilling? && step.propertyId == p && step.month == m
    && QueryOrders(s, p, step.order, step.roomOrder)
    && RunBilling(s, p, m, step.order, step.roomOrder).result.Ok?
    && !IsCompleted(s, p, m)
  }

  /** A step that is not itself a fresh run cannot complete a month, and keeps the bills of a completed one. */
  lemma CompletedStep(s: State, step: Step, p: Id, m: Month)
    requires Inv(s) && Allowed(s, step) && Undisturbing(s, step, p, m) && !BillsAfresh(s, step, p, m)
    requires IsCompleted(Apply(s, step), p, m)
    ensures IsCompleted(s, p, m)
    ensures BillView(Apply(s, step).dues, p, m) == BillView(s.dues, p, m)
  {
    hide Inv, Undisturbing, Allocations, BillView;
    if !Targets(step, p, m) {
      StepLeavesMonth(s, step, p, m);
    } else if step.DoRunBilling? {
      RefusedRun(s, p, m, step.order, step.roomOrder);
    } else {
      SubmissionPends(s, step.propertyId, step.ownerId, step.submission, step.thisMonth);
    }
  }

  lemma SubmissionPends(s: State, p: Id, ownerId: Id, x: Submission, now: Month)
    ensures SubmitAllReadings(s, p, ownerId, x, now).db == s
            || !IsCompleted(SubmitAllReadings(s, p, ownerId, x, now).db, p, x.month)
  {
    hide AcceptsReadings, StoreRooms, RoomUnits;
  }

  /** The month's electricity dues are exactly the bills that the run in step k answered. */
  ghost predicate ShowsRun(states: seq<State>, steps: seq<Step>, k: nat, p: Id, m: Month)
    requires |states| == |steps| + 1 && k < |steps|
  {
    && BillsAfresh(states[k], steps[k], p, m)
    && var reply := RunBilling(states[k], p, m, steps[k].order, steps[k].roomOrder);
    && reply.result.Ok? && reply.result.value.Some?
    && ShowsBills(states[|steps|].dues, p, m, states[k].nextId, reply.result.value.value)
  }

  /**
   Whenever a month is COMPLETED, there was a run that completed it, and since the last such run its electricity dues
   are exactly that run's allocations: the same tenancies and totals, one due for each allocation, none besides.
   */
  lemma {:induction false} CompletedMonthShowsLastRun(states: seq<State>, steps: seq<Step>, p: Id,
          m: Month) returns (k: nat)
    requires IsRun(states, steps) && Inv(states[0]) && !IsCompleted(states[0], p, m)
    requires forall i :: 0 <= i < |steps| ==> Undisturbing(states[i], steps[i], p, m)
    requires IsCompleted(states[|steps|], p, m)
    ensures k < |steps| && ShowsRun(states, steps, k, p, m)
    ensures forall i :: k < i < |steps| ==> !BillsAfresh(states[i], steps[i], p, m)
    decreases |steps|
  {
    hide Inv, Undisturbing, BillsAfresh, Apply, Allowed, IsCompleted, BillView, ShowsBills, RunBilling, QueryOrders;
    var n := |steps| - 1;
    RunsKeepInv(states, steps);
    if BillsAfresh(states[n], steps[n], p, m) {
      k := n;
      FreshRunBills(states[n], steps[n], p, m);
    } else {
      CompletedStep(states[n], steps[n], p, m);
      var front, before := states[..n + 1], steps[..n];
      k := CompletedMonthShowsLastRun(front, before, p, m);
      assert front[k] == states[k] && before[k] == steps[k] && front[n] == states[n];
      forall i | k < i < |steps|
        ensures !BillsAfresh(states[i], steps[i], p, m)
      {
        if i < n {
          assert front[i] == states[i] && before[i] == steps[i];
        }
      }
      LaterStateShows(states[k], steps[k], states[n].dues, states[n + 1].dues, p, m);
    }
  }

  lemma LaterStateShows(s: State, step: Step, dues: Dues, dues': Dues, p: Id, m: Month)
    requires BillsAfresh(s, step, p, m) && BillView(dues', p, m) == BillView(dues, p, m)
    ensures var reply := RunBilling(s, p, m, step.order, step.roomOrder);
            reply.result.Ok? && reply.result.value.Some?
                && ShowsBills(dues, p, m, s.nextId, reply.result.value.value) ==>
              ShowsBills(dues', p, m, s.nextId, reply.result.value.value)
  {
    hide RunBilling, BillView, ShowsBills, QueryOrders;
    var reply := RunBilling(s, p, m, step.order, step.roomOrder);
    if reply.result.Ok? && reply.result.value.Some? && ShowsBills(dues, p, m, s.nextId, reply.result.value.value) {
      SameBillsShown(dues, dues', p, m, s.nextId, reply.result.value.value);
    }
  }

  lemma SameBillsShown(dues: Dues, dues': Dues, p: Id, m: Month, first: Id, bills: seq<Allocation>)
    requires ShowsBills(dues, p, m, first, bills) && BillView(dues', p, m) == BillView(dues, p, m)
    ensures ShowsBills(dues', p, m, first, bills)
  {
    hide BillView;
  }

  lemma FreshRunBills(s: State, step: Step, p: Id, m: Month)
    requires Inv(s) && Allowed(s, step) && BillsAfresh(s, step, p, m)
    ensures step.DoRunBilling? && QueryOrders(s, p, step.order, step.roomOrder)
    ensures var reply := RunBilling(s, p, m, step.order, step.roomOrder);
            && reply.result.Ok? && reply.result.value.Some?
            && ShowsBills(Apply(s, step).dues, p, m, s.nextId, reply.result.value.value)
  {
    hide Inv, RunBilling, ShowsBills, IsCompleted, QueryOrders;
    RunLeavesItsBills(s, p, m, step.order, step.roomOrder);
  }

  // ------------------------------------------------------- what a run bills in total

  /**
   Unit conservation of a billing run in any reachable database: the units over all of its bills are the
   main-meter units exactly when the effective pool is empty or somebody carries it.
   */
  lemma RunConservesUnits(s: State, p: Id, m: Month, order: seq<Id>, roomOrder: seq<Id>)
    requires Inv(s) && QueryOrders(s, p, order, roomOrder)
    requires RunBilling(s, p, m, order, roomOrder).result.Ok? && !IsCompleted(s, p, m)
    ensures (p, m) in s.mainReadings
    ensures var x := RunInputs(s, p, m, order, roomOrder);
            var reply := RunBilling(s, p, m, order, roomOrder);
            && reply.result.value.Some?
            && (BilledUnits(reply.result.value.value) == s.mainReadings[(p, m)].unitConsumed
                <==> EffectivePool(x) == 0.0 || DaysOf(PoolEntries(x)) > 0)
  {
    hide Inv, RunBilling, Allocations, PoolEntries, DaysOf, RunInputs, EffectivePool, BilledUnits, Addable;
    RunBillingIs(s, p, m, order, roomOrder);
    RunInputsAreSound(s, p, m, order, roomOrder);
    var x := RunInputs(s, p, m, order, roomOrder);
    EffectivePoolNonNegative(x);
    UnitConservation(x, s.mainReadings[(p, m)].unitConsumed);
  }

  lemma EffectivePoolNonNegative(x: Inputs)
    requires Distinct(x.meteredRooms) && x.rawSharedPoolUnits >= 0.0
    requires forall r :: r in x.readings ==> x.readings[r] >= 0.0
    ensures EffectivePool(x) >= 0.0
  {
    hide Total, VacantUnits;
    var vacant := Restrict(x.readings, Elements(x.meteredRooms) - Elements(Occupied(x)));
    VacantUnitsTotal(x.meteredRooms, Occupied(x), x.readings);
    forall r | r in vacant
      ensures vacant[r] >= 0.0
    {
      assert r in x.readings;
    }
    TotalNonNegative(vacant);
  }

  /** The totals of the new dues stay within one rupee per occupied metered room and pool entry of the price. */
  lemma RunMoneyBound(s: State, p: Id, m: Month, order: seq<Id>, roomOrder: seq<Id>)
    requires Inv(s) && QueryOrders(s, p, order, roomOrder)
    requires RunBilling(s, p, m, order, roomOrder).result.Ok? && !IsCompleted(s, p, m)
    ensures (p, m) in s.mainReadings
    ensures var x := RunInputs(s, p, m, order, roomOrder);
            var reply := RunBilling(s, p, m, order, roomOrder);
            && reply.result.value.Some?
            && RoundedUp(reply.result.value.value, s.mainReadings[(p, m)].unitPrice,
                         |Occupied(x)| + (if PoolIsBilled(x) then |PoolEntries(x)| else 0))
  {
    hide Inv, RunBilling, Allocations, PoolEntries, DaysOf, EffectivePool, Occupied, RoundedUp, Addable, RemoveDues,
         InsertDues;
    RunBillingIs(s, p, m, order, roomOrder);
    RunInputsAreSound(s, p, m, order, roomOrder);
    MoneyBound(RunInputs(s, p, m, order, roomOrder));
  }

  /**
   What a completed run records adds up: its shared pool is what the main meter shows beyond the room meters plus
   the vacant metered rooms, and the rate times the days is that pool whenever anybody carried it.
   */
  lemma RunRecordBalances(s: State, p: Id, m: Month, order: seq<Id>, roomOrder: seq<Id>)
    requires Inv(s) && QueryOrders(s, p, order, roomOrder)
    requires RunBilling(s, p, m, order, roomOrder).result.Ok? && !IsCompleted(s, p, m)
    ensures (p, m) in s.mainReadings && (p, m) in RunBilling(s, p, m, order, roomOrder).db.runs
    ensures var x, run := RunInputs(s, p, m, order, roomOrder), RunBilling(s, p, m, order, roomOrder).db.runs[(p, m)];
            && run.mainMeterUnits == s.mainReadings[(p, m)].unitConsumed
                && run.unitPrice == s.mainReadings[(p, m)].unitPrice
            && run.sharedPoolUnits + run.privateRoomsUnits
               == run.mainMeterUnits + VacantUnits(x.meteredRooms, Occupied(x), x.readings)
            && (run.totalDaysPool.Some? <==> PoolIsBilled(x)) && (run.perDayRate.Some? <==> PoolIsBilled(x))
            && (PoolIsBilled(x) ==> Numbers.Times(run.perDayRate.value, run.totalDaysPool.value) == run.sharedPoolUnits)
  {
    hide Inv, InsertDues, RemoveDues, ReplacedDues, Referenced, Total, Metered, PoolBills, PoolEntries, DaysOf,
         VacantUnits, Occupied,
         ReadingByRoom, ActiveRows, ElectricityCollected, RunnableReadings, QueryOrders, Addable, BillDues,
             Numbers.Times, Numbers.Per;
    RunBillingIs(s, p, m, order, roomOrder);
    var x := RunInputs(s, p, m, order, roomOrder);
    DaysAreNatural(x);
    if PoolIsBilled(x) {
      Numbers.PerTimes(EffectivePool(x), DaysOf(PoolEntries(x)));
    }
  }

  lemma DaysAreNatural(x: Inputs)
    ensures DaysOf(PoolEntries(x)) >= 0
  {
    hide DaysOf, DayEntries;
    EntriesPositive(PoolTenancies(x.tenancies, x.meteredRooms), x.month, x.year);
  }
}
