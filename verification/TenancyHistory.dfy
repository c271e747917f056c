/** What can happen to a tenancy row: over any run, who it belongs to, how its status moves and when it moves room. */
module TenancyHistory {
  import opened Calendar
  import DateText
  import opened DueRules
  import opened ElectricityProofs
  import opened ElectricityRules
  import opened Invariants
  import opened PaymentProofs
  import opened PaymentRules
  import Proration
  import opened System
  import opened Tables
  import opened TenancyProofs
  import opened TenancyRules
  import opened Text

  /** The moves of the status machine. */
  predicate Edge(a: TenancyStatus, b: TenancyStatus) {
    || a == b
    || (a == Active && b == NoticePeriod)
    || (a == NoticePeriod && b == Active)
    || (a == Pending && b == Active)
    || (Live(a) && b == Exited)
    || (a == Exited && b == Active)
  }

  /** One step of one tenancy: it keeps its tenant and dates, and moves room only while active or on notice. */
  predicate LegalChange(a: Tenancy, b: Tenancy) {
    && b.tenantId == a.tenantId && b.joinedAt == a.joinedAt && b.nextBillingDate == a.nextBillingDate
    && Edge(a.status, b.status)
    && (b.roomId != a.roomId || b.propertyId != a.propertyId ==>
          a.status == b.status && (a.status == Active || a.status == NoticePeriod))
  }

  /** Who owns a property. */
  function Landlord(owners: map<Id, Id>, propertyId: Id): Option<Id> {
    if propertyId in owners then Some(owners[propertyId]) else None
  }

  /** One step of all tenancies: none vanishes or changes its landlord, and new ones start active or pending. */
  ghost predicate LegalStep(s: State, s': State) {
    && s'.owners == s.owners
    && (forall t :: t in s.tenancies && t in s'.tenancies ==>
          Landlord(s.owners, s'.tenancies[t].propertyId) == Landlord(s.owners, s.tenancies[t].propertyId))
    && (forall t :: t in s.tenancies ==> t in s'.tenancies && LegalChange(s.tenancies[t], s'.tenancies[t]))
    && (forall t :: t in s'.tenancies && t !in s.tenancies ==>
          (s'.tenancies[t].status == Active || s'.tenancies[t].status == Pending) && s'.tenancies[t].deletedAt.None?)
  }

  lemma SameTenancies(s: State, s': State)
    requires s'.tenancies == s.tenancies && s'.owners == s.owners
    ensures LegalStep(s, s')
  {
  }

  lemma OneTenancyChanged(s: State, s': State, t: Id, row: Tenancy)
    requires s'.owners == s.owners
    requires t in s.tenancies && s'.tenancies == s.tenancies[t := row] && LegalChange(s.tenancies[t], row)
    requires Landlord(s.owners, row.propertyId) == Landlord(s.owners, s.tenancies[t].propertyId)
    ensures LegalStep(s, s')
  {
  }

  lemma OneTenancyOpened(s: State, s': State, t: Id, row: Tenancy)
    requires t !in s.tenancies && s'.tenancies == s.tenancies[t := row] && s'.owners == s.owners
    requires (row.status == Active || row.status == Pending) && row.deletedAt.None?
    ensures LegalStep(s, s')
  {
  }

  lemma OnboardHistory(s: State, r: Onboarding, today: Time, month: Month)
    requires Inv(s)
    ensures LegalStep(s, CreateTenant(s, r, today, month).db)
  {
    hide Inv, InsertDues, FirstDues, OpenTenancy, OnboardPreflight, LegalStep;
    SameTenancies(s, s);
    if CreateTenant(s, r, today, month).result.Ok? {
      var s' := OpenTenancy(s, r, today);
      ArrivedTenancy(s, r, today);
      var t := s'.nextId - 1;
      OneTenancyOpened(s, CreateTenant(s, r, today, month).db, t, s'.tenancies[t]);
    }
  }

  lemma ArrivedTenancy(s: State, r: Onboarding, today: Time)
    requires Inv(s) && r.roomId in s.rooms
    ensures var s' := OpenTenancy(s, r, today);
            var t := s'.nextId - 1;
            && t !in s.tenancies && t in s'.tenancies && s'.tenancies == s.tenancies[t := s'.tenancies[t]]
            && (s'.tenancies[t].status == Active || s'.tenancies[t].status == Pending)
                && s'.tenancies[t].deletedAt.None?
            && s'.owners == s.owners
  {
    hide OccupancyOk, DebtOk, LedgerOk, TransactionsOk, SettledOk, PendingOk, ReadingsOk, AddBeds,
         Proration.GetFirstCycleEnd;
  }

  lemma ShiftHistory(s: State, t: Id, room: Id, property: Option<Id>, owner: Id)
    ensures LegalStep(s, ShiftTenantRoom(s, t, room, property, owner).db)
  {
    hide LegalStep, ShiftCommit, MoveInside, MoveAcross;
    SameTenancies(s, s);
    if ShiftPreflight(s, t, room, property, owner).Ok? {
      var plan := ShiftPreflight(s, t, room, property, owner).value;
      if ShiftCommit(s, plan).result.Err? {
        ShiftRefused(s, plan);
      } else if plan.newProperty == plan.oldProperty {
        ShiftedInside(s, plan);
        InsideTenancies(s, plan);
        OneTenancyChanged(s, MoveInside(s, plan), t, s.tenancies[t].(roomId := room));
      } else {
        ShiftedAcross(s, plan);
        AcrossTenancies(s, plan);
        OneTenancyChanged(s, MoveAcross(s, plan), t, s.tenancies[t].(roomId := room, propertyId := plan.newProperty));
      }
    }
  }

  lemma InsideTenancies(s: State, plan: ShiftPlan)
    requires PlanReadable(s, plan)
    ensures MoveInside(s, plan).owners == s.owners
    ensures MoveInside(s, plan).tenancies
            == s.tenancies[plan.tenancyId := s.tenancies[plan.tenancyId].(roomId := plan.newRoom)]
  {
    hide MoveBed;
  }

  lemma AcrossTenancies(s: State, plan: ShiftPlan)
    requires PlanReadable(s, plan)
    ensures MoveAcross(s, plan).owners == s.owners
    ensures MoveAcross(s, plan).tenancies
            == s.tenancies[plan.tenancyId := s.tenancies[plan.tenancyId].(roomId := plan.newRoom,
                propertyId := plan.newProperty)]
  {
    hide MoveBed, Buckets, MoveBuckets, Reassign, OpenDues;
  }

  lemma ExitHistory(s: State, found: Option<Id>, tenantId: Id, propertyId: Id, ownerId: Id, now: Time)
    ensures LegalStep(s, DeleteTenant(s, found, tenantId, propertyId, ownerId, now).db)
  {
    hide LegalStep, OpenDues, Owns, AddBeds;
    SameTenancies(s, s);
    var s' := DeleteTenant(s, found, tenantId, propertyId, ownerId, now).db;
    if DeleteTenant(s, found, tenantId, propertyId, ownerId, now).result.Ok? {
      OneTenancyChanged(s, s', found.value, s'.tenancies[found.value]);
    }
  }

  /** The steps that change one row's status (and at most its leaving and deletion dates). */
  ghost predicate ChangesOne(s: State, s': State, t: Id) {
    && s'.owners == s.owners
    && (|| s'.tenancies == s.tenancies
        || (t in s.tenancies && t in s'.tenancies && s'.tenancies == s.tenancies[t := s'.tenancies[t]]
            && s'.tenancies[t].propertyId == s.tenancies[t].propertyId
            && LegalChange(s.tenancies[t], s'.tenancies[t])))
  }

  lemma OneChange(s: State, s': State, t: Id)
    requires ChangesOne(s, s', t)
    ensures LegalStep(s, s')
  {
    hide LegalStep;
    if s'.tenancies == s.tenancies {
      SameTenancies(s, s');
    } else {
      OneTenancyChanged(s, s', t, s'.tenancies[t]);
    }
  }

  lemma ReturnHistory(s: State, propertyId: Id, ownerId: Id, t: Id)
    ensures LegalStep(s, RevokeTenancyExit(s, t, ownerId).db)
    ensures LegalStep(s, ReActiveTenancy(s, propertyId, ownerId, t).db)
  {
    hide LegalStep, Owns, AddBeds;
    OneChange(s, RevokeTenancyExit(s, t, ownerId).db, t);
    OneChange(s, ReActiveTenancy(s, propertyId, ownerId, t).db, t);
  }

  lemma NoticeHistory(s: State, t: Id, ownerId: Id, moveOut: Time, today: Time)
    ensures LegalStep(s, PutOnNoticePeriod(s, t, ownerId, moveOut, today).db)
  {
    hide LegalStep, Owns, ValidMoveOut;
    OneChange(s, PutOnNoticePeriod(s, t, ownerId, moveOut, today).db, t);
  }

  lemma CancelHistory(s: State, t: Id, ownerId: Id)
    ensures LegalStep(s, CancelNoticePeriod(s, t, ownerId).db)
  {
    hide LegalStep, Owns;
    OneChange(s, CancelNoticePeriod(s, t, ownerId).db, t);
  }

  lemma ApprovalHistory(s: State, t: Id, ownerId: Id, requestProperty: Id, moveOut: Time, today: Time)
    ensures LegalStep(s, ApproveMoveOut(s, t, requestProperty, ownerId, moveOut, today).db)
  {
    hide LegalStep, Owns, ValidMoveOut;
    OneChange(s, ApproveMoveOut(s, t, requestProperty, ownerId, moveOut, today).db, t);
  }

  lemma MoveInHistory(s: State, t: Id, ownerId: Id, today: Time)
    ensures LegalStep(s, ConfirmMoveIn(s, t, ownerId, today).db)
  {
    hide LegalStep, Owns, DateText.ToDateOnly;
    OneChange(s, ConfirmMoveIn(s, t, ownerId, today).db, t);
  }

  lemma DetailsOutcome(s: State, t: Id, ownerId: Id, moveOut: Option<Option<Time>>, today: Time)
    ensures var s' := UpdateTenancyDetails(s, t, ownerId, moveOut, today).db;
            || s' == s
            || (&& t in s.tenancies && (s.tenancies[t].status == Active || s.tenancies[t].status == NoticePeriod)
                && (s' == SetTenancy(s, t, s.tenancies[t].(status := Active))
                    || s' == SetTenancy(s, t, s.tenancies[t].(status := NoticePeriod))))
  {
    hide SetTenancy, Owns, ValidMoveOut;
  }

  lemma DetailsHistory(s: State, t: Id, ownerId: Id, moveOut: Option<Option<Time>>, today: Time)
    ensures LegalStep(s, UpdateTenancyDetails(s, t, ownerId, moveOut, today).db)
  {
    hide LegalStep, UpdateTenancyDetails;
    DetailsOutcome(s, t, ownerId, moveOut, today);
    SameTenancies(s, s);
    if t in s.tenancies && (s.tenancies[t].status == Active || s.tenancies[t].status == NoticePeriod) {
      var active, noticed := s.tenancies[t].(status := Active), s.tenancies[t].(status := NoticePeriod);
      OneTenancyChanged(s, SetTenancy(s, t, active), t, active);
      OneTenancyChanged(s, SetTenancy(s, t, noticed), t, noticed);
    }
  }

  lemma OtherStepsKeepTenancies(s: State, step: Step)
    requires Inv(s) && Allowed(s, step)
    requires step.DoAddDue? || step.DoAddRoomDue? || step.DoCreateDue? || step.DoDeleteDue? || step.DoEditDue?
             || step.DoCollect? || step.DoInitiatePayment? || step.DoMakePayment?
    ensures Apply(s, step).tenancies == s.tenancies && Apply(s, step).owners == s.owners
  {
    hide Inv, AddDueToTenant, AddDueToRoom, CreateDueForTenant, DeleteDue, EditDue, CollectDue, InitiatePayment,
         MakePayment;
  }

  lemma SubmissionKeepsTenancies(s: State, propertyId: Id, ownerId: Id, x: Submission, now: Month)
    ensures var s' := SubmitAllReadings(s, propertyId, ownerId, x, now).db;
            s'.tenancies == s.tenancies && s'.owners == s.owners
  {
    hide AcceptsReadings, StoreRooms, RoomUnits;
  }

  lemma RunKeepsTenancies(s: State, p: Id, month: Month, order: seq<Id>, roomOrder: seq<Id>)
    requires Inv(s) && QueryOrders(s, p, order, roomOrder)
    ensures var s' := RunBilling(s, p, month, order, roomOrder).db;
            s'.tenancies == s.tenancies && s'.owners == s.owners
  {
    hide Inv, RunBilling, InsertDues, Addable, ReplacedDues, RunInputs, QueryOrders, ElectricityCollected;
    if RunBilling(s, p, month, order, roomOrder).result.Ok? && !IsCompleted(s, p, month) {
      RunBillingIs(s, p, month, order, roomOrder);
    } else {
      RefusedRun(s, p, month, order, roomOrder);
    }
  }

  /** Every service call moves every tenancy along the status machine, or not at all. */
  lemma StepIsLegal(s: State, step: Step)
    requires Inv(s) && Allowed(s, step)
    ensures LegalStep(s, Apply(s, step))
  {
    hide Inv, LegalStep, CreateTenant, ShiftTenantRoom, DeleteTenant, RevokeTenancyExit, ReActiveTenancy,
         PutOnNoticePeriod,
         CancelNoticePeriod, ApproveMoveOut, ConfirmMoveIn, UpdateTenancyDetails, AddDueToTenant, AddDueToRoom,
         CreateDueForTenant, DeleteDue, EditDue, CollectDue, InitiatePayment, MakePayment, HandleWebhook,
         SubmitAllReadings, RunBilling;
    match step
    case DoCreateTenant(r, today, month) => OnboardHistory(s, r, today, month);
    case DoShift(t, room, property, owner) => ShiftHistory(s, t, room, property, owner);
    case DoDeleteTenant(found, tenant, property, owner, now) => ExitHistory(s, found, tenant, property, owner, now);
    case DoRevokeExit(t, owner) => ReturnHistory(s, 0, owner, t);
    case DoReActivate(property, owner, t) => ReturnHistory(s, property, owner, t);
    case DoNotice(t, owner, moveOut, today) => NoticeHistory(s, t, owner, moveOut, today);
    case DoCancelNotice(t, owner) => CancelHistory(s, t, owner);
    case DoApproveMoveOut(t, property, owner, moveOut, today) => ApprovalHistory(s, t, owner, property, moveOut, today);
    case DoConfirmMoveIn(t, owner, today) => MoveInHistory(s, t, owner, today);
    case DoUpdateDetails(t, owner, moveOut, today) => DetailsHistory(s, t, owner, moveOut, today);
    case DoWebhook(txn, hashValid, status) =>
      WebhookFrame(s, txn, hashValid, status);
      SameTenancies(s, Apply(s, step));
    case DoRunBilling(property, month, order, roomOrder) =>
      RunKeepsTenancies(s, property, month, order, roomOrder);
      SameTenancies(s, Apply(s, step));
    case DoSubmitReadings(property, owner, x, now) =>
      SubmissionKeepsTenancies(s, property, owner, x, now);
      SameTenancies(s, Apply(s, step));
    case _ =>
      OtherStepsKeepTenancies(s, step);
      SameTenancies(s, Apply(s, step));
  }

  /** Tenants, joining dates and landlords stay, and a tenancy that had begun is never pending again. */
  ghost predicate Continued(s: State, s': State) {
    s'.owners == s.owners && forall t :: t in s.tenancies ==>
      && t in s'.tenancies
      && s'.tenancies[t].tenantId == s.tenancies[t].tenantId && s'.tenancies[t].joinedAt == s.tenancies[t].joinedAt
      && Landlord(s.owners, s'.tenancies[t].propertyId) == Landlord(s.owners, s.tenancies[t].propertyId)
      && (s.tenancies[t].status != Pending ==> s'.tenancies[t].status != Pending)
  }

  lemma ContinuedTransitive(a: State, b: State, c: State)
    requires Continued(a, b) && LegalStep(b, c)
    ensures Continued(a, c)
  {
  }

  /**
   Over any stretch of any run no tenancy row disappears or changes its tenant, joining date or landlord, wherever it
   is shifted, and a tenancy that has left PENDING never returns to it.
   */
  lemma {:induction false} TenanciesContinue(states: seq<State>, steps: seq<Step>, i: nat, j: nat)
    requires IsRun(states, steps) && Inv(states[0])
    requires i <= j < |states|
    ensures Continued(states[i], states[j])
    decreases j
  {
    hide Inv, Apply, Allowed, Continued, LegalStep;
    RunsKeepInv(states, steps);
    if i == j {
      assert Continued(states[i], states[j]) by { ContinuedReflexive(states[i]); }
    } else {
      TenanciesContinue(states, steps, i, j - 1);
      StepIsLegal(states[j - 1], steps[j - 1]);
      ContinuedTransitive(states[i], states[j - 1], states[j]);
    }
  }

  lemma ContinuedReflexive(s: State)
    ensures Continued(s, s)
  {
  }
}
