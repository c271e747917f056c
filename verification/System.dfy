/** The backend as one transition system: every service call is a step, and every run keeps the invariant. */
module System {
  import opened Calendar
  import opened DueProofs
  import opened DueRules
  import opened ElectricityProofs
  import opened ElectricityRules
  import opened Invariants
  import opened Numbers
  import opened PaymentProofs
  import opened PaymentRules
  import opened Queries
  import opened Tables
  import opened TenancyProofs
  import opened TenancyRules
  import opened Text

  /** One atomic service call with its request, and the row orders that its queries came back in. */
  datatype Step =
    | DoCreateTenant(onboarding: Onboarding, today: Time, month: Month)
    | DoShift(tenancyId: Id, newRoom: Id, newProperty: Option<Id>, ownerId: Id)
    | DoDeleteTenant(found: Option<Id>, tenantId: Id, propertyId: Id, ownerId: Id, now: Time)
    | DoRevokeExit(tenancyId: Id, ownerId: Id)
    | DoReActivate(propertyId: Id, ownerId: Id, tenancyId: Id)
    | DoNotice(tenancyId: Id, ownerId: Id, moveOut: Time, today: Time)
    | DoCancelNotice(tenancyId: Id, ownerId: Id)
    | DoApproveMoveOut(tenancyId: Id, propertyId: Id, ownerId: Id, moveOut: Time, today: Time)
    | DoConfirmMoveIn(tenancyId: Id, ownerId: Id, today: Time)
    | DoUpdateDetails(tenancyId: Id, ownerId: Id, moveOutDate: Option<Option<Time>>, today: Time)
    | DoAddDue(found: Option<Id>, tenantId: Id, propertyId: Id, dueType: DueType, amount: real, month: Month)
    | DoAddRoomDue(order: seq<Id>, roomId: Id, propertyId: Id, dueType: DueType, amount: real, month: Month)
    | DoCreateDue(found: Option<Id>, tenantId: Id, propertyId: Id, ownerId: Id, dueType: DueType, amount: real,
        month: Month)
    | DoDeleteDue(dueId: Id, ownerId: Id)
    | DoEditDue(dueId: Id, edit: DueEdit, ownerId: Id)
    | DoCollect(dueId: Id, amount: real)
    | DoInitiatePayment(dueId: Id, tenantId: Id)
    | DoMakePayment(tenantId: Id, amount: real, lines: seq<Line>, propertyId: Id)
    | DoWebhook(transactionId: Id, hashValid: bool, gatewayStatus: GatewayStatus)
    | DoSubmitReadings(propertyId: Id, ownerId: Id, submission: Submission, thisMonth: Month)
    | DoRunBilling(propertyId: Id, month: Month, order: seq<Id>, roomOrder: seq<Id>)

  /** Query orders list the rows they stand for. */
  ghost predicate Answered(s: State, step: Step) {
    match step
    case DoAddRoomDue(order, roomId, propertyId, _, _, _) => Lists(order, RoomTenancies(s, roomId, propertyId))
    case DoRunBilling(propertyId, _, order, roomOrder) => QueryOrders(s, propertyId, order, roomOrder)
    case _ => true
  }

  /** The two add-due requests, which check no amount, create no negative due. */
  ghost predicate NothingNegative(s: State, step: Step) {
    match step
    case DoAddDue(found, tenant, property, _, amount, _) =>
      found.Some? && IsTenancyOf(s, found.value, tenant, property) ==> Ceil(amount) >= 0
    case DoAddRoomDue(order, _, _, _, amount, _) => |order| > 0 ==> ShareOf(amount, |order|) >= 0
    case _ => true
  }

  ghost predicate Allowed(s: State, step: Step) {
    Answered(s, step) && NothingNegative(s, step)
  }

  ghost function Apply(s: State, step: Step): State
    requires Answered(s, step)
  {
    match step
    case DoCreateTenant(r, today, month) => CreateTenant(s, r, today, month).db
    case DoShift(t, room, property, owner) => ShiftTenantRoom(s, t, room, property, owner).db
    case DoDeleteTenant(found, tenant, property, owner, now) => DeleteTenant(s, found, tenant, property, owner, now).db
    case DoRevokeExit(t, owner) => RevokeTenancyExit(s, t, owner).db
    case DoReActivate(property, owner, t) => ReActiveTenancy(s, property, owner, t).db
    case DoNotice(t, owner, moveOut, today) => PutOnNoticePeriod(s, t, owner, moveOut, today).db
    case DoCancelNotice(t, owner) => CancelNoticePeriod(s, t, owner).db
    case DoApproveMoveOut(t, property, owner, moveOut, today) =>
      ApproveMoveOut(s, t, property, owner, moveOut, today).db
    case DoConfirmMoveIn(t, owner, today) => ConfirmMoveIn(s, t, owner, today).db
    case DoUpdateDetails(t, owner, moveOut, today) => UpdateTenancyDetails(s, t, owner, moveOut, today).db
    case DoAddDue(found, tenant, property, dueType, amount, month) =>
      AddDueToTenant(s, found, tenant, property, dueType, amount, month).db
    case DoAddRoomDue(order, room, property, dueType, amount, month) =>
      AddDueToRoom(s, order, room, property, dueType, amount, month).db
    case DoCreateDue(found, tenant, property, owner, dueType, amount, month) =>
      CreateDueForTenant(s, found, tenant, property, owner, dueType, amount, month).db
    case DoDeleteDue(due, owner) => DeleteDue(s, due, owner).db
    case DoEditDue(due, edit, owner) => EditDue(s, due, edit, owner).db
    case DoCollect(due, amount) => CollectDue(s, due, amount).db
    case DoInitiatePayment(due, tenant) => InitiatePayment(s, due, tenant).db
    case DoMakePayment(tenant, amount, lines, property) => MakePayment(s, tenant, amount, lines, property).db
    case DoWebhook(txn, hashValid, status) => HandleWebhook(s, txn, hashValid, status).db
    case DoSubmitReadings(property, owner, submission, now) => SubmitAllReadings(s, property, owner, submission, now).db
    case DoRunBilling(property, month, order, roomOrder) => RunBilling(s, property, month, order, roomOrder).db
  }

  /** A run: the states before, between and after its steps. */
  ghost predicate IsRun(states: seq<State>, steps: seq<Step>) {
    && |states| == |steps| + 1
    && forall i :: 0 <= i < |steps| ==> Allowed(states[i], steps[i]) && states[i + 1] == Apply(states[i], steps[i])
  }

  /** The call is made by the tenancy service. */
  ghost predicate OnTenancies(step: Step) {
    || step.DoCreateTenant? || step.DoShift? || step.DoDeleteTenant? || step.DoRevokeExit? || step.DoReActivate?
    || step.DoNotice? || step.DoCancelNotice? || step.DoApproveMoveOut? || step.DoConfirmMoveIn?
    || step.DoUpdateDetails?
  }

  lemma TenancyStepKeepsInv(s: State, step: Step)
    requires Inv(s) && Allowed(s, step) && OnTenancies(step)
    ensures Inv(Apply(s, step))
  {
    hide Inv, CreateTenant, ShiftTenantRoom, DeleteTenant, RevokeTenancyExit, ReActiveTenancy, PutOnNoticePeriod,
         CancelNoticePeriod, ApproveMoveOut, ConfirmMoveIn, UpdateTenancyDetails;
    match step
    case DoCreateTenant(r, today, month) => CreateTenantKeepsInv(s, r, today, month);
    case DoShift(t, room, property, owner) => ShiftTenantRoomKeepsInv(s, t, room, property, owner);
    case DoDeleteTenant(found, tenant, property, owner, now) =>
      DeleteTenantKeepsInv(s, found, tenant, property, owner, now);
    case DoRevokeExit(t, owner) => RevokeKeepsInv(s, t, owner);
    case DoReActivate(property, owner, t) => ReActivateKeepsInv(s, property, owner, t);
    case DoNotice(t, owner, moveOut, today) => StatusChangesKeepInv(s, t, owner, 0, moveOut, today);
    case DoCancelNotice(t, owner) => StatusChangesKeepInv(s, t, owner, 0, 0, 0);
    case DoApproveMoveOut(t, property, owner, moveOut, today) =>
      StatusChangesKeepInv(s, t, owner, property, moveOut, today);
    case DoConfirmMoveIn(t, owner, today) => StatusChangesKeepInv(s, t, owner, 0, 0, today);
    case DoUpdateDetails(t, owner, moveOut, today) => UpdateDetailsKeepsInv(s, t, owner, moveOut, today);
  }

  lemma MoneyStepKeepsInv(s: State, step: Step)
    requires Inv(s) && Allowed(s, step) && !OnTenancies(step)
    ensures Inv(Apply(s, step))
  {
    hide Inv, AddDueToTenant, AddDueToRoom, CreateDueForTenant, DeleteDue, EditDue, CollectDue, InitiatePayment,
         MakePayment, HandleWebhook, SubmitAllReadings, RunBilling;
    match step
    case DoAddDue(found, tenant, property, dueType, amount, month) =>
      AddDueKeepsInv(s, found, tenant, property, dueType, amount, month);
    case DoAddRoomDue(order, room, property, dueType, amount, month) =>
      AddDueToRoomKeepsInv(s, order, room, property, dueType, amount, month);
    case DoCreateDue(found, tenant, property, owner, dueType, amount, month) =>
      CreateDueKeepsInv(s, found, tenant, property, owner, dueType, amount, month);
    case DoDeleteDue(due, owner) => DeleteDueKeepsInv(s, due, owner);
    case DoEditDue(due, edit, owner) => EditDueKeepsInv(s, due, edit, owner);
    case DoCollect(due, amount) => CollectDueKeepsInv(s, due, amount);
    case DoInitiatePayment(due, tenant) => InitiatePaymentKeepsInv(s, due, tenant);
    case DoMakePayment(tenant, amount, lines, property) => MakePaymentKeepsInv(s, tenant, amount, lines, property);
    case DoWebhook(txn, hashValid, status) => HandleWebhookKeepsInv(s, txn, hashValid, status);
    case DoSubmitReadings(property, owner, submission, now) => SubmitKeepsInv(s, property, owner, submission, now);
    case DoRunBilling(property, month, order, roomOrder) => RunBillingKeepsInv(s, property, month, order, roomOrder);
  }

  lemma StepKeepsInv(s: State, step: Step)
    requires Inv(s) && Allowed(s, step)
    ensures Inv(Apply(s, step))
  {
    hide Inv, Allowed, Apply;
    if OnTenancies(step) {
      TenancyStepKeepsInv(s, step);
    } else {
      MoneyStepKeepsInv(s, step);
    }
  }

  /** A service call keeps the invariant exactly when it creates no negative due. */
  lemma StepKeepsInvExactly(s: State, step: Step)
    requires Inv(s) && Answered(s, step)
    ensures Inv(Apply(s, step)) <==> NothingNegative(s, step)
  {
    hide Inv, Apply, ShareOf, Ceil;
    if NothingNegative(s, step) {
      StepKeepsInv(s, step);
    } else {
      NegativeStepBreaks(s, step);
    }
  }

  lemma NegativeStepBreaks(s: State, step: Step)
    requires Inv(s) && Answered(s, step) && !NothingNegative(s, step)
    ensures !Inv(Apply(s, step))
  {
    hide Inv, ShareOf, Ceil, AddDueToTenant, AddDueToRoom, IsTenancyOf;
    match step {
      case DoAddDue(found, tenant, property, dueType, amount, month) =>
        AddDueLedgerCondition(s, found.value, tenant, property, dueType, amount, month);
        assert found == Some(found.value);
      case DoAddRoomDue(order, room, property, dueType, amount, month) =>
        RoomDueLedgerCondition(s, order, room, property, dueType, amount, month);
    }
    if Inv(Apply(s, step)) {
      LedgerOfInv(Apply(s, step));
    }
  }

  /**
   Every state of every run satisfies the invariant: exact occupancy, no debt on exited tenancies, the ledger
   equation of every due, sound transactions, settlements and pending amounts, and consistent meter readings.
   */
  lemma {:induction false} RunsKeepInv(states: seq<State>, steps: seq<Step>)
    requires IsRun(states, steps) && Inv(states[0])
    ensures forall i :: 0 <= i < |states| ==> Inv(states[i])
    decreases |steps|
  {
    hide Inv, Apply, Allowed;
    if steps != [] {
      var n := |steps|;
      RunsKeepInv(states[..n], steps[..n - 1]);
      assert states[..n][n - 1] == states[n - 1];
      StepKeepsInv(states[n - 1], steps[n - 1]);
      forall i | 0 <= i < |states|
        ensures Inv(states[i])
      {
        if i < n {
          assert states[..n][i] == states[i];
        }
      }
    }
  }

  // ------------------------------------------------------------ what never changes

  /** Started: something was paid into the due. */
  predicate Started(status: DueStatus) {
    status == Partial || status == Paid
  }

  /**
   What time cannot undo: paid dues are frozen, started dues stay, payments and settlements are permanent, and
   decided transactions stay decided.
   */
  ghost predicate Progress(s: State, s': State) {
    && (forall d :: d in s.dues && s.dues[d].status == Paid ==> d in s'.dues && s'.dues[d] == s.dues[d])
    && (forall d :: d in s.dues && Started(s.dues[d].status) ==> d in s'.dues && Started(s'.dues[d].status))
    && (forall p :: p in s.payments ==> p in s'.payments && s'.payments[p] == s.payments[p])
    && (forall t :: t in s.settlements ==> t in s'.settlements && s'.settlements[t] == s.settlements[t])
    && TransactionsProgress(s, s')
  }

  lemma ProgressReflexive(s: State)
    ensures Progress(s, s)
  {
  }

  lemma ProgressTransitive(a: State, b: State, c: State)
    requires Progress(a, b) && Progress(b, c)
    ensures Progress(a, c)
  {
  }

  lemma InsertDueProgress(s: State, due: Due)
    requires Inv(s)
    ensures Progress(s, InsertDue(s, due))
  {
    assert s.nextId !in s.dues;
  }

  lemma {:induction false} InsertDuesProgress(s: State, dues: seq<Due>)
    requires Inv(s)
    requires forall i :: 0 <= i < |dues| ==> Addable(s, dues[i])
    ensures Progress(s, InsertDues(s, dues))
    decreases |dues|
  {
    hide Inv, Progress, Addable, InsertDue;
    if dues == [] {
      ProgressReflexive(s);
    } else {
      var front := dues[..|dues| - 1];
      InsertDuesProgress(s, front);
      InsertDuesKeeps(s, front);
      InsertDueProgress(InsertDues(s, front), dues[|dues| - 1]);
      ProgressTransitive(s, InsertDues(s, front), InsertDues(s, dues));
    }
  }

  lemma RecordPaymentProgress(s: State, dueId: Id, due: Due, amount: Money)
    requires Inv(s) && dueId in s.dues && s.dues[dueId].status != Paid
    ensures Progress(s, RecordPayment(s, dueId, due, amount))
  {
    assert s.nextId !in s.payments;
  }

  lemma {:induction false} PayLinesProgress(s: State, lines: seq<Line>)
    requires Inv(s) && DistinctDues(lines) && PositiveLines(lines)
    requires forall i :: 0 <= i < |lines| ==> lines[i].dueId in s.dues
    ensures Progress(s, PayLines(s, s.dues, lines))
    decreases |lines|
  {
    hide Inv, Progress, RecordPayment;
    if lines == [] {
      ProgressReflexive(s);
    } else {
      var front, line := lines[..|lines| - 1], lines[|lines| - 1];
      PayLinesProgress(s, front);
      PayLinesKeeps(s, front);
      UntouchedByLines(s, s.dues, front, line.dueId);
      var before := PayLines(s, s.dues, front);
      if s.dues[line.dueId].status != Paid {
        RecordPaymentProgress(before, line.dueId, s.dues[line.dueId], line.amount);
        ProgressTransitive(s, before, PayLines(s, s.dues, lines));
      }
    }
  }

  lemma PaidDuesProgress(s: State, txn: Id)
    requires Inv(s) && txn in s.transactions
    ensures Progress(s, PaidDues(s, txn))
  {
    hide FreshIds, OccupancyOk, DebtOk, LedgerOk, SettledOk, PendingOk, ReadingsOk, LineTotal, Progress;
    var t := s.transactions[txn];
    assert TransactionOk(s.dues, t);
    if t.dueId.Some? {
      ProgressReflexive(s);
      if s.dues[t.dueId.value].status != Paid {
        RecordPaymentProgress(s, t.dueId.value, s.dues[t.dueId.value], t.amount);
      }
    } else {
      PayLinesProgress(s, t.lines);
    }
  }

  /** Marking an undecided transaction and adding a settlement row are progress. */
  lemma DecisionProgress(s: State, paid: State, txn: Id, status: TransactionStatus)
    requires Progress(s, paid) && txn in s.transactions && s.transactions[txn].status == Initiated
    requires paid.transactions == s.transactions
    ensures Progress(s, SetStatus(paid, txn, status))
  {
  }

  lemma SettleProgress(s: State, paid: State, txn: Id, propertyId: Id, amount: Money)
    requires Progress(s, paid) && txn !in s.settlements
    ensures Progress(s, Settle(paid, txn, propertyId, amount))
  {
  }

  lemma PayoutProgress(s: State, txn: Id, hashValid: bool, status: GatewayStatus)
    requires Inv(s) && PaysOut(s, txn, hashValid, status)
    ensures Progress(s, HandleWebhook(s, txn, hashValid, status).db)
  {
    hide Inv, PaidDues, ProcessSuccessfulPayment, Progress, SetStatus, Settle;
    var t := s.transactions[txn];
    ProcessedIs(s, txn);
    if Detached(t) {
      ProgressReflexive(s);
      if txn !in s.settlements {
        SettleProgress(s, s, txn, t.propertyId, t.amount);
      }
    } else {
      WebhookPays(s, txn, hashValid, status);
      PaidDuesProgress(s, txn);
      DecisionProgress(s, PaidDues(s, txn), txn, Success);
      SettleProgress(s, SetStatus(PaidDues(s, txn), txn, Success), txn, t.propertyId, t.amount);
    }
  }

  lemma WebhookProgress(s: State, txn: Id, hashValid: bool, status: GatewayStatus)
    requires Inv(s)
    ensures Progress(s, HandleWebhook(s, txn, hashValid, status).db)
  {
    hide Inv, ProcessSuccessfulPayment, Progress, SetStatus;
    ProgressReflexive(s);
    if PaysOut(s, txn, hashValid, status) {
      PayoutProgress(s, txn, hashValid, status);
    } else if txn in s.transactions && s.transactions[txn].status == Initiated {
      DecisionProgress(s, s, txn, Failed);
      DecisionProgress(s, s, txn, Cancelled);
    }
  }

  lemma RemoveDuesProgress(s: State, gone: set<Id>)
    requires forall d :: d in gone ==> d in s.dues && s.dues[d].status == Unpaid
    ensures Progress(s, RemoveDues(s, gone))
  {
  }

  lemma RunBillingProgress(s: State, propertyId: Id, month: Month, order: seq<Id>, roomOrder: seq<Id>)
    requires Inv(s) && QueryOrders(s, propertyId, order, roomOrder)
    ensures Progress(s, RunBilling(s, propertyId, month, order, roomOrder).db)
  {
    hide Inv, RunBilling, InsertDues, RemoveDues, ReplacedDues, Addable, Progress, Allocation.Allocations;
    var reply := RunBilling(s, propertyId, month, order, roomOrder);
    if reply.result.Ok? && !IsCompleted(s, propertyId, month) {
      RunBillingIs(s, propertyId, month, order, roomOrder);
      var cleared := RemoveDues(s, ReplacedDues(s, propertyId, month));
      var dues := BillDues(reply.result.value.value, month);
      ReplacedAreUnprotected(s, propertyId, month);
      RemoveDuesProgress(s, ReplacedDues(s, propertyId, month));
      InsertDuesProgress(cleared, dues);
      ProgressTransitive(s, cleared, InsertDues(cleared, dues));
      RunsAside(s, InsertDues(cleared, dues), reply.db.runs);
    } else {
      RefusedRun(s, propertyId, month, order, roomOrder);
      ProgressReflexive(s);
    }
  }

  lemma RunsAside(s: State, s': State, runs: map<(Id, Month), BillingRun>)
    requires Progress(s, s')
    ensures Progress(s, s'.(runs := runs))
  {
  }

  lemma OnboardProgress(s: State, r: Onboarding, today: Time, month: Month)
    requires Inv(s)
    ensures Progress(s, CreateTenant(s, r, today, month).db)
  {
    hide Inv, InsertDues, FirstDues, OpenTenancy, Progress;
    ProgressReflexive(s);
    if CreateTenant(s, r, today, month).result.Ok? {
      OnboardedDues(s, r, today, month);
      var arrived := OpenTenancy(s, r, today);
      InsertDuesProgress(arrived, FirstDues(r, arrived.nextId - 1, month));
      SameLedger(s, arrived, InsertDues(arrived, FirstDues(r, arrived.nextId - 1, month)));
    }
  }

  lemma SameLedger(s: State, arrived: State, after: State)
    requires arrived.dues == s.dues && arrived.payments == s.payments && arrived.transactions == s.transactions
    requires arrived.settlements == s.settlements && Progress(arrived, after)
    ensures Progress(s, after)
  {
  }

  lemma ReassignProgress(s: State, s': State, t: Id, property: Id)
    requires s'.dues == Reassign(s.dues, OpenDues(s.dues, t), property)
    requires s'.payments == s.payments && s'.transactions == s.transactions && s'.settlements == s.settlements
    ensures Progress(s, s')
  {
  }

  lemma ShiftProgress(s: State, t: Id, room: Id, property: Option<Id>, owner: Id)
    ensures Progress(s, ShiftTenantRoom(s, t, room, property, owner).db)
  {
    hide Progress, ShiftCommit, ShiftPreflight;
    var plan, s' := ShiftPreflight(s, t, room, property, owner), ShiftTenantRoom(s, t, room, property, owner).db;
    ProgressReflexive(s);
    if plan.Ok? {
      ShiftedMoney(s, plan.value);
    }
  }

  lemma ShiftedMoney(s: State, plan: ShiftPlan)
    ensures Progress(s, ShiftCommit(s, plan).db)
  {
    hide Progress, Reassign, OpenDues, MoveInside, MoveAcross, ShiftCommit;
    var s' := ShiftCommit(s, plan).db;
    if ShiftCommit(s, plan).result.Err? {
      ShiftRefused(s, plan);
      SameTables(s, s');
    } else if plan.newProperty == plan.oldProperty {
      ShiftedInside(s, plan);
      InsideFrame(s, plan);
      SameTables(s, s');
    } else {
      ShiftedAcross(s, plan);
      AcrossFrame(s, plan);
      ReassignProgress(s, s', plan.tenancyId, plan.newProperty);
    }
  }

  lemma SameTables(s: State, s': State)
    requires s'.dues == s.dues && s'.payments == s.payments && s'.transactions == s.transactions
        && s'.settlements == s.settlements
    ensures Progress(s, s')
  {
  }

  lemma AddRoomDueProgress(s: State, order: seq<Id>, roomId: Id, propertyId: Id, dueType: DueType, amount: real,
          month: Month)
    requires Inv(s) && Lists(order, RoomTenancies(s, roomId, propertyId))
    requires |order| > 0 ==> ShareOf(amount, |order|) >= 0
    ensures Progress(s, AddDueToRoom(s, order, roomId, propertyId, dueType, amount, month).db)
  {
    hide Inv, InsertDues, Progress, ShareOf;
    ProgressReflexive(s);
    if AddDueToRoom(s, order, roomId, propertyId, dueType, amount, month).result.Ok? {
      RoomDuesAddable(s, order, roomId, propertyId, dueType, amount, month);
      InsertDuesProgress(s, RoomDues(order, propertyId, dueType, month, ShareOf(amount, |order|) as real));
    }
  }

  lemma AddedDueProgress(s: State, step: Step)
    requires Inv(s) && Allowed(s, step) && (step.DoAddDue? || step.DoCreateDue?)
    ensures Progress(s, Apply(s, step))
  {
    hide Inv, Progress, InsertDue, NewDue, Ceil;
    ProgressReflexive(s);
    forall due
      ensures Progress(s, InsertDue(s, due))
    {
      InsertDueProgress(s, due);
    }
  }

  lemma DeleteProgress(s: State, dueId: Id, ownerId: Id)
    ensures Progress(s, DeleteDue(s, dueId, ownerId).db)
  {
    hide Progress, RemoveDues, Referenced;
    ProgressReflexive(s);
    if DeleteDue(s, dueId, ownerId).result.Ok? {
      RemoveDuesProgress(s, {dueId});
    }
  }

  lemma EditProgress(s: State, dueId: Id, edit: DueEdit, ownerId: Id)
    ensures Progress(s, EditDue(s, dueId, edit, ownerId).db)
  {
    hide Progress;
    ProgressReflexive(s);
    if EditDue(s, dueId, edit, ownerId).result.Ok? {
      ReplaceDueProgress(s, dueId, EditDue(s, dueId, edit, ownerId).db.dues[dueId]);
    }
  }

  lemma ReplaceDueProgress(s: State, dueId: Id, due: Due)
    requires dueId in s.dues && !Started(s.dues[dueId].status)
    ensures Progress(s, s.(dues := s.dues[dueId := due]))
  {
  }

  lemma CollectProgress(s: State, dueId: Id, amount: real)
    requires Inv(s)
    ensures Progress(s, CollectDue(s, dueId, amount).db)
  {
    hide Inv, Progress, RecordPayment, Ceil;
    ProgressReflexive(s);
    if CollectDue(s, dueId, amount).result.Ok? {
      RecordPaymentProgress(s, dueId, s.dues[dueId], Ceil(amount) as real);
    }
  }

  lemma NewTransactionProgress(s: State, dueId: Option<Id>, lines: seq<Line>, propertyId: Id, amount: Money)
    requires Inv(s)
    ensures Progress(s, NewTransaction(s, dueId, lines, propertyId, amount))
  {
    assert s.nextId !in s.transactions;
  }

  lemma InitiationProgress(s: State, step: Step)
    requires Inv(s) && Allowed(s, step) && (step.DoInitiatePayment? || step.DoMakePayment?)
    ensures Progress(s, Apply(s, step))
  {
    hide Inv, Progress, NewTransaction, PaymentAccepted;
    ProgressReflexive(s);
    match step
    case DoInitiatePayment(dueId, _) =>
      if dueId in s.dues {
        NewTransactionProgress(s, Some(dueId), [], s.dues[dueId].propertyId, s.dues[dueId].balance);
      }
    case DoMakePayment(_, amount, lines, propertyId) => NewTransactionProgress(s, None, lines, propertyId, amount);
  }

  lemma RevokeProgress(s: State, t: Id, owner: Id)
    ensures Progress(s, RevokeTenancyExit(s, t, owner).db)
  {
    hide Progress, RevokeTenancyExit;
    SameTables(s, RevokeTenancyExit(s, t, owner).db);
  }

  lemma ReActivateProgress(s: State, property: Id, owner: Id, t: Id)
    ensures Progress(s, ReActiveTenancy(s, property, owner, t).db)
  {
    hide Progress, ReActiveTenancy;
    SameTables(s, ReActiveTenancy(s, property, owner, t).db);
  }

  lemma NoticeProgress(s: State, t: Id, owner: Id, date: Time, today: Time)
    ensures Progress(s, PutOnNoticePeriod(s, t, owner, date, today).db)
  {
    hide Progress, PutOnNoticePeriod;
    SameTables(s, PutOnNoticePeriod(s, t, owner, date, today).db);
  }

  lemma CancelNoticeProgress(s: State, t: Id, owner: Id)
    ensures Progress(s, CancelNoticePeriod(s, t, owner).db)
  {
    hide Progress, CancelNoticePeriod;
    SameTables(s, CancelNoticePeriod(s, t, owner).db);
  }

  lemma ApproveMoveOutProgress(s: State, t: Id, property: Id, owner: Id, date: Time, today: Time)
    ensures Progress(s, ApproveMoveOut(s, t, property, owner, date, today).db)
  {
    hide Progress, ApproveMoveOut;
    SameTables(s, ApproveMoveOut(s, t, property, owner, date, today).db);
  }

  lemma ConfirmMoveInProgress(s: State, t: Id, owner: Id, today: Time)
    ensures Progress(s, ConfirmMoveIn(s, t, owner, today).db)
  {
    hide Progress, ConfirmMoveIn;
    SameTables(s, ConfirmMoveIn(s, t, owner, today).db);
  }

  lemma DeleteTenantProgress(s: State, found: Option<Id>, tenantId: Id, propertyId: Id, ownerId: Id, now: Time)
    ensures Progress(s, DeleteTenant(s, found, tenantId, propertyId, ownerId, now).db)
  {
    hide Progress, DeleteTenant;
    SameTables(s, DeleteTenant(s, found, tenantId, propertyId, ownerId, now).db);
  }

  lemma UpdateDetailsProgress(s: State, t: Id, owner: Id, moveOut: Option<Option<Time>>, today: Time)
    ensures Progress(s, UpdateTenancyDetails(s, t, owner, moveOut, today).db)
  {
    hide Progress, UpdateTenancyDetails;
    SameTables(s, UpdateTenancyDetails(s, t, owner, moveOut, today).db);
  }

  lemma StoreProgress(s: State, propertyId: Id, x: Submission)
    ensures Progress(s, StoreReadings(s, propertyId, x))
  {
    hide Progress, StoreRooms, RoomUnits;
    SameTables(s, StoreReadings(s, propertyId, x));
  }

  lemma SubmitProgress(s: State, propertyId: Id, ownerId: Id, x: Submission, now: Month)
    ensures Progress(s, SubmitAllReadings(s, propertyId, ownerId, x, now).db)
  {
    hide Progress, AcceptsReadings, StoreReadings;
    ProgressReflexive(s);
    StoreProgress(s, propertyId, x);
  }

  lemma StepProgress(s: State, step: Step)
    requires Inv(s) && Allowed(s, step)
    ensures Progress(s, Apply(s, step))
  {
    hide Inv, Progress, CreateTenant, ShiftTenantRoom, DeleteTenant, RevokeTenancyExit, ReActiveTenancy,
         PutOnNoticePeriod,
         CancelNoticePeriod, ApproveMoveOut, ConfirmMoveIn, UpdateTenancyDetails, AddDueToTenant, AddDueToRoom,
         CreateDueForTenant, DeleteDue, EditDue, CollectDue, InitiatePayment, MakePayment, HandleWebhook,
         SubmitAllReadings, RunBilling;
    match step
    case DoCreateTenant(r, today, month) => OnboardProgress(s, r, today, month);
    case DoShift(t, room, property, owner) => ShiftProgress(s, t, room, property, owner);
    case DoAddRoomDue(order, room, property, dueType, amount, month) =>
      AddRoomDueProgress(s, order, room, property, dueType, amount, month);
    case DoWebhook(txn, hashValid, status) => WebhookProgress(s, txn, hashValid, status);
    case DoRunBilling(property, month, order, roomOrder) => RunBillingProgress(s, property, month, order, roomOrder);
    case DoAddDue(_, _, _, _, _, _) => AddedDueProgress(s, step);
    case DoCreateDue(_, _, _, _, _, _, _) => AddedDueProgress(s, step);
    case DoDeleteDue(due, owner) => DeleteProgress(s, due, owner);
    case DoEditDue(due, edit, owner) => EditProgress(s, due, edit, owner);
    case DoCollect(due, amount) => CollectProgress(s, due, amount);
    case DoInitiatePayment(_, _) => InitiationProgress(s, step);
    case DoMakePayment(_, _, _, _) => InitiationProgress(s, step);
    case DoDeleteTenant(found, tenant, property, owner, now) =>
      DeleteTenantProgress(s, found, tenant, property, owner, now);
    case DoUpdateDetails(t, owner, moveOut, today) => UpdateDetailsProgress(s, t, owner, moveOut, today);
    case DoSubmitReadings(property, owner, submission, now) => SubmitProgress(s, property, owner, submission, now);
    case DoRevokeExit(t, owner) => RevokeProgress(s, t, owner);
    case DoReActivate(property, owner, t) => ReActivateProgress(s, property, owner, t);
    case DoNotice(t, owner, date, today) => NoticeProgress(s, t, owner, date, today);
    case DoCancelNotice(t, owner) => CancelNoticeProgress(s, t, owner);
    case DoApproveMoveOut(t, property, owner, date, today) =>
      ApproveMoveOutProgress(s, t, property, owner, date, today);
    case DoConfirmMoveIn(t, owner, today) => ConfirmMoveInProgress(s, t, owner, today);
  }

  /** Over any stretch of any run, paid dues, payments, settlements and decided transactions never change again. */
  lemma {:induction false} RunsProgress(states: seq<State>, steps: seq<Step>, i: nat, j: nat)
    requires IsRun(states, steps) && Inv(states[0])
    requires i <= j < |states|
    ensures Progress(states[i], states[j])
    decreases j
  {
    hide Inv, Apply, Allowed, Progress;
    RunsKeepInv(states, steps);
    if i == j {
      ProgressReflexive(states[i]);
    } else {
      RunsProgress(states, steps, i, j - 1);
      StepProgress(states[j - 1], steps[j - 1]);
      ProgressTransitive(states[i], states[j - 1], states[j]);
    }
  }

  // ---------------------------------------------------------------- fixed rooms

  lemma BedsOnly(rooms: Rooms, roomId: Id, delta: int)
    requires roomId in rooms
    ensures SameRooms(rooms, AddBeds(rooms, roomId, delta)) && SameTotals(rooms, AddBeds(rooms, roomId, delta))
  {
  }

  ghost predicate SameTotals(rooms: Rooms, rooms': Rooms) {
    && rooms'.Keys == rooms.Keys
    && forall r :: r in rooms ==> rooms'[r].totalBeds == rooms[r].totalBeds
  }

  lemma TwoBedsOnly(rooms: Rooms, a: Id, b: Id)
    requires a in rooms && b in rooms
    ensures var rooms' := MoveBed(rooms, a, b);
            SameRooms(rooms, rooms') && SameTotals(rooms, rooms')
  {
    BedsOnly(rooms, a, -1);
    BedsOnly(AddBeds(rooms, a, -1), b, 1);
  }

  lemma OnboardKeepsRooms(s: State, r: Onboarding, today: Time, month: Month)
    ensures SameRooms(s.rooms, CreateTenant(s, r, today, month).db.rooms)
    ensures SameTotals(s.rooms, CreateTenant(s, r, today, month).db.rooms)
  {
    hide SameRooms, SameTotals, OpenTenancy, InsertDues, FirstDues, OnboardPreflight;
    RoomsReflexive(s.rooms);
    if r.roomId in s.rooms {
      ArrivalRooms(s, r, today);
      BedsOnly(s.rooms, r.roomId, 1);
    }
  }

  lemma ShiftKeepsRooms(s: State, t: Id, room: Id, property: Option<Id>, owner: Id)
    ensures SameRooms(s.rooms, ShiftTenantRoom(s, t, room, property, owner).db.rooms)
    ensures SameTotals(s.rooms, ShiftTenantRoom(s, t, room, property, owner).db.rooms)
  {
    hide SameRooms, SameTotals, ShiftCommit, ShiftPreflight, MoveBed;
    RoomsReflexive(s.rooms);
    var plan := ShiftPreflight(s, t, room, property, owner);
    if plan.Ok? {
      if ShiftCommit(s, plan.value).result.Ok? {
        ShiftedRooms(s, plan.value);
        TwoBedsOnly(s.rooms, plan.value.oldRoom, plan.value.newRoom);
      } else {
        ShiftRefused(s, plan.value);
      }
    }
  }

  lemma ExitStepsKeepRooms(s: State, step: Step)
    requires Inv(s) && Allowed(s, step)
    requires step.DoDeleteTenant? || step.DoRevokeExit? || step.DoReActivate?
    ensures SameRooms(s.rooms, Apply(s, step).rooms) && SameTotals(s.rooms, Apply(s, step).rooms)
  {
    hide Inv, AddBeds, SameRooms, SameTotals, OpenDues, IsTenancyOf;
    RoomsReflexive(s.rooms);
    forall r, delta | r in s.rooms
      ensures SameRooms(s.rooms, AddBeds(s.rooms, r, delta)) && SameTotals(s.rooms, AddBeds(s.rooms, r, delta))
    {
      BedsOnly(s.rooms, r, delta);
    }
  }

  lemma RoomsReflexive(rooms: Rooms)
    ensures SameRooms(rooms, rooms) && SameTotals(rooms, rooms)
  {
  }

  /** Rooms never appear, vanish, change property, meter or size: only their bed counters move. */
  lemma StepKeepsRooms(s: State, step: Step)
    requires Inv(s) && Allowed(s, step)
    ensures SameRooms(s.rooms, Apply(s, step).rooms) && SameTotals(s.rooms, Apply(s, step).rooms)
  {
    hide Inv, SameRooms, SameTotals, CreateTenant, ShiftTenantRoom, RunBilling, HandleWebhook, QueryOrders;
    RoomsReflexive(s.rooms);
    match step
    case DoCreateTenant(r, today, month) => OnboardKeepsRooms(s, r, today, month);
    case DoShift(t, room, property, owner) => ShiftKeepsRooms(s, t, room, property, owner);
    case DoDeleteTenant(_, _, _, _, _) => ExitStepsKeepRooms(s, step);
    case DoRevokeExit(_, _) => ExitStepsKeepRooms(s, step);
    case DoReActivate(_, _, _) => ExitStepsKeepRooms(s, step);
    case DoWebhook(txn, hashValid, status) => WebhookFrame(s, txn, hashValid, status);
    case DoRunBilling(property, month, order, roomOrder) => RunKeepsRooms(s, property, month, order, roomOrder);
    case DoNotice(_, _, _, _) => StatusStepsKeepRooms(s, step);
    case DoCancelNotice(_, _) => StatusStepsKeepRooms(s, step);
    case DoApproveMoveOut(_, _, _, _, _) => StatusStepsKeepRooms(s, step);
    case DoConfirmMoveIn(_, _, _) => StatusStepsKeepRooms(s, step);
    case DoUpdateDetails(_, _, _, _) => StatusStepsKeepRooms(s, step);
    case DoSubmitReadings(_, _, _, _) => StatusStepsKeepRooms(s, step);
    case _ => DueStepsKeepRooms(s, step);
  }

  lemma StatusStepsKeepRooms(s: State, step: Step)
    requires Inv(s) && Allowed(s, step)
    requires step.DoNotice? || step.DoCancelNotice? || step.DoApproveMoveOut? || step.DoConfirmMoveIn?
             || step.DoUpdateDetails? || step.DoSubmitReadings?
    ensures Apply(s, step).rooms == s.rooms
  {
    hide Inv, PutOnNoticePeriod, CancelNoticePeriod, ApproveMoveOut, ConfirmMoveIn, UpdateTenancyDetails,
         AcceptsReadings,
         StoreRooms, RoomUnits;
  }

  lemma DueStepsKeepRooms(s: State, step: Step)
    requires Inv(s) && Allowed(s, step)
    requires step.DoAddDue? || step.DoAddRoomDue? || step.DoCreateDue? || step.DoDeleteDue? || step.DoEditDue?
             || step.DoCollect? || step.DoInitiatePayment? || step.DoMakePayment?
    ensures Apply(s, step).rooms == s.rooms
  {
    hide Inv, AddDueToTenant, AddDueToRoom, CreateDueForTenant, DeleteDue, EditDue, CollectDue, InitiatePayment,
         MakePayment;
  }

  lemma RunKeepsRooms(s: State, p: Id, month: Month, order: seq<Id>, roomOrder: seq<Id>)
    requires Inv(s) && QueryOrders(s, p, order, roomOrder)
    ensures RunBilling(s, p, month, order, roomOrder).db.rooms == s.rooms
  {
    hide Inv, RunBilling, InsertDues, Addable, ReplacedDues, RunInputs, QueryOrders, ElectricityCollected;
    if RunBilling(s, p, month, order, roomOrder).result.Ok? && !IsCompleted(s, p, month) {
      RunBillingIs(s, p, month, order, roomOrder);
    } else {
      RefusedRun(s, p, month, order, roomOrder);
    }
  }
}
