/** The due and billing services, statement by statement on the database rows. */
module DueService {
  import opened Admission
  import opened DueProofs
  import opened DueRules
  import opened Invariants
  import opened Numbers
  import opened Queries
  import opened Tables
  import opened Text

  // ------------------------------------------------------------- row statements

  method CreateDue(db: Database, due: Due) returns (id: Id)
    modifies db`nextId, db`dues
    ensures id == old(db.nextId)
    ensures db.Snapshot() == InsertDue(old(db.Snapshot()), due)
  {
    id := db.nextId;
    db.nextId := id + 1;
    db.dues := db.dues[id := due];
  }

  /** Foreign keys refuse the whole deletion if a payment or a payment line points at one of the dues. */
  method DeleteDues(db: Database, gone: set<Id>) returns (ok: bool)
    modifies db`dues, db`transactions
    ensures ok <==> !exists d :: d in gone && Referenced(old(db.Snapshot()), d)
    ensures db.Snapshot() == if ok then RemoveDues(old(db.Snapshot()), gone) else old(db.Snapshot())
  {
    hide Referenced;
    if exists d :: d in gone && Referenced(db.Snapshot(), d) {
      return false;
    }
    db.transactions := Detach(db.transactions, gone);
    db.dues := db.dues - gone;
    return true;
  }

  /** findFirst with the tenant, property, status and soft-delete filters. */
  method FindTenancy(db: Database, tenantId: Id, propertyId: Id) returns (found: Option<Id>)
    ensures found.None? <==> TenanciesOf(db.Snapshot(), tenantId, propertyId) == {}
    ensures found.Some? ==> found.value in TenanciesOf(db.Snapshot(), tenantId, propertyId)
  {
    found := FindFirst(TenanciesOf(db.Snapshot(), tenantId, propertyId));
  }

  // ---------------------------------------------------------------- adding dues

  /** An unpaid due of the property that asks for the amount. */
  predicate Asks(due: Due, propertyId: Id, dueType: DueType, month: Month, amount: Money) {
    && due.propertyId == propertyId && due.dueType == dueType && due.month == month
    && due.total == due.balance == amount && due.paid == 0.0 && due.status == Unpaid
  }

  lemma FoundIsTenancy(s: State, tenantId: Id, propertyId: Id)
    ensures forall t :: t in TenanciesOf(s, tenantId, propertyId) <==> IsTenancyOf(s, t, tenantId, propertyId)
  {
  }

  method AddDueToTenant(db: Database, tenantId: Id, propertyId: Id, dueType: DueType, amount: real, month: Month)
    returns (r: Result<Id>, ghost found: Option<Id>)
    modifies db`nextId, db`dues
    ensures Reply(db.Snapshot(), r)
            == DueRules.AddDueToTenant(old(db.Snapshot()), found, tenantId, propertyId, dueType, amount, month)
    ensures r.Err? ==> r == Err(BadRequest)
    ensures r.Err? ==> db.Snapshot() == old(db.Snapshot())
    ensures r.Ok? <==> exists t :: IsLiveOf(old(db.Snapshot()), t, tenantId, propertyId)
    ensures r.Ok? ==>
              && r.value in db.dues && db.dues == old(db.dues)[r.value := db.dues[r.value]]
              && Asks(db.dues[r.value], propertyId, dueType, month, Ceil(amount) as real)
              && IsLiveOf(old(db.Snapshot()), db.dues[r.value].tenancyId, tenantId, propertyId)
    ensures Inv(old(db.Snapshot())) && r.Ok? ==> r.value !in old(db.dues)
  {
    hide Billable, Inv, IsLiveOf, Ceil, TenanciesOf;
    ghost var s := db.Snapshot();
    FoundIsTenancy(s, tenantId, propertyId);
    LiveTenanciesExactly(s, tenantId, propertyId);
    if Inv(s) {
      DuesAreFresh(s);
    }
    var tenancy := FindTenancy(db, tenantId, propertyId);
    found := tenancy;
    if tenancy.None? {
      return Err(BadRequest), found;
    }
    var id := CreateDue(db, NewDue(tenancy.value, db.tenancies[tenancy.value].propertyId, dueType, month,
        Ceil(amount) as real));
    r := Ok(id);
  }

  /** The tenancy is in the room and the property, not deleted, and active, on notice or pending. */
  predicate IsLiveIn(s: State, t: Id, roomId: Id, propertyId: Id) {
    && t in s.tenancies && s.tenancies[t].roomId == roomId && IsLiveOf(s, t, s.tenancies[t].tenantId, propertyId)
  }

  lemma LiveInExactly(s: State, roomId: Id, propertyId: Id)
    ensures forall t :: t in RoomTenancies(s, roomId, propertyId) <==> IsLiveIn(s, t, roomId, propertyId)
  {
  }

  lemma ListedLive(s: State, order: seq<Id>, roomId: Id, propertyId: Id)
    requires Lists(order, RoomTenancies(s, roomId, propertyId))
    ensures forall i, j :: 0 <= i < j < |order| ==> order[i] != order[j]
    ensures forall t :: t in order <==> IsLiveIn(s, t, roomId, propertyId)
    ensures |order| > 0 <==> exists t :: IsLiveIn(s, t, roomId, propertyId)
  {
    hide IsLiveIn, RoomTenancies;
    LiveInExactly(s, roomId, propertyId);
    if |order| > 0 {
      assert order[0] in order && IsLiveIn(s, order[0], roomId, propertyId);
    }
    if t :| IsLiveIn(s, t, roomId, propertyId) {
      assert t in order;
    }
  }

  /** Each tenancy of the order has one new due of the amount, and no other due has changed. */
  ghost predicate RoomCharged(s: State, s': State, order: seq<Id>, propertyId: Id, dueType: DueType, month: Month,
                              amount: Money) {
    && (forall d :: d in s'.dues <==> d in s.dues || s.nextId <= d < s.nextId + |order|)
    && (forall d :: d in s.dues ==> d < s.nextId && s'.dues[d] == s.dues[d])
    && forall i :: 0 <= i < |order| ==> AsksOf(s'.dues, s.nextId + i, order[i], propertyId, dueType, month, amount)
  }

  predicate AsksOf(dues: Dues, d: Id, t: Id, propertyId: Id, dueType: DueType, month: Month, amount: Money) {
    d in dues && dues[d].tenancyId == t && Asks(dues[d], propertyId, dueType, month, amount)
  }

  lemma OneIsCharged(s: State, dues: seq<Due>, i: nat, t: Id, propertyId: Id, dueType: DueType, month: Month,
                     amount: Money)
    requires forall d :: d in s.dues ==> d < s.nextId
    requires i < |dues| && Asks(dues[i], propertyId, dueType, month, amount) && dues[i].tenancyId == t
    ensures AsksOf(InsertDues(s, dues).dues, s.nextId + i, t, propertyId, dueType, month, amount)
  {
    hide InsertDues, Asks;
    InsertDuesExact(s, dues);
    assert InsertDues(s, dues).dues[s.nextId + i] == dues[i];
  }

  lemma EachIsCharged(s: State, dues: seq<Due>, order: seq<Id>, propertyId: Id, dueType: DueType, month: Month,
                      amount: Money)
    requires forall d :: d in s.dues ==> d < s.nextId
    requires |dues| == |order|
    requires forall i :: 0 <= i < |order| ==>
               Asks(dues[i], propertyId, dueType, month, amount) && dues[i].tenancyId == order[i]
    ensures RoomCharged(s, InsertDues(s, dues), order, propertyId, dueType, month, amount)
  {
    hide InsertDues, Asks, AsksOf;
    forall i | 0 <= i < |order|
      ensures AsksOf(InsertDues(s, dues).dues, s.nextId + i, order[i], propertyId, dueType, month, amount)
    {
      OneIsCharged(s, dues, i, order[i], propertyId, dueType, month, amount);
    }
    InsertDuesExact(s, dues);
  }

  lemma RoomIsCharged(s: State, order: seq<Id>, propertyId: Id, dueType: DueType, month: Month, totalAmount: real)
    requires Inv(s) && |order| > 0
    ensures RoomCharged(s, InsertDues(s, RoomDues(order, propertyId, dueType, month,
                                                  ShareOf(totalAmount, |order|) as real)),
                        order, propertyId, dueType, month, Ceil(totalAmount / |order| as real) as real)
  {
    hide Inv, InsertDues, Ceil, RoomCharged;
    DuesAreFresh(s);
    var share := ShareOf(totalAmount, |order|) as real;
    EachIsCharged(s, RoomDues(order, propertyId, dueType, month, share), order, propertyId, dueType, month, share);
  }

  method AddDueToRoom(db: Database, roomId: Id, propertyId: Id, dueType: DueType, totalAmount: real, month: Month)
    returns (r: Result<int>, ghost order: seq<Id>)
    modifies db`nextId, db`dues
    ensures Reply(db.Snapshot(), r)
            == DueRules.AddDueToRoom(old(db.Snapshot()), order, roomId, propertyId, dueType, totalAmount, month)
    ensures r.Err? ==> r == Err(BadRequest)
    ensures r.Err? ==> db.Snapshot() == old(db.Snapshot())
    ensures r.Ok? <==>
              && roomId in old(db.rooms) && old(db.rooms)[roomId].propertyId == propertyId
              && exists t :: IsLiveIn(old(db.Snapshot()), t, roomId, propertyId)
    ensures r.Ok? ==>
              && r.value == |order| > 0
              && (forall i, j :: 0 <= i < j < |order| ==> order[i] != order[j])
              && (forall t :: t in order <==> IsLiveIn(old(db.Snapshot()), t, roomId, propertyId))
    ensures Inv(old(db.Snapshot())) && r.Ok? ==>
              RoomCharged(old(db.Snapshot()), db.Snapshot(), order, propertyId, dueType, month,
                          Ceil(totalAmount / |order| as real) as real)
  {
    hide InsertDues, RoomTenancies, Lists, IsLiveIn, Inv, RoomCharged, ShareOf;
    ghost var s := db.Snapshot();
    LiveInExactly(s, roomId, propertyId);
    forall tenancies | Inv(s) && |tenancies| > 0
      ensures RoomCharged(s, InsertDues(s, RoomDues(tenancies, propertyId, dueType, month,
                                                    ShareOf(totalAmount, |tenancies|) as real)),
                          tenancies, propertyId, dueType, month, Ceil(totalAmount / |tenancies| as real) as real)
    {
      RoomIsCharged(s, tenancies, propertyId, dueType, month, totalAmount);
    }
    order := [];
    if roomId !in db.rooms || db.rooms[roomId].propertyId != propertyId {
      return Err(BadRequest), order;
    }
    var tenancies := FindMany(RoomTenancies(db.Snapshot(), roomId, propertyId));
    order := tenancies;
    ListedLive(s, tenancies, roomId, propertyId);
    if |tenancies| == 0 {
      return Err(BadRequest), order;
    }
    var share := ShareOf(totalAmount, |tenancies|) as real;
    CreateRoomDues(db, tenancies, propertyId, dueType, month, share);
    return Ok(|tenancies|), order;
  }

  method CreateRoomDues(db: Database, tenancies: seq<Id>, propertyId: Id, dueType: DueType, month: Month, share: Money)
    modifies db`nextId, db`dues
    ensures db.Snapshot() == InsertDues(old(db.Snapshot()), RoomDues(tenancies, propertyId, dueType, month, share))
  {
    hide InsertDue;
    ghost var dues := RoomDues(tenancies, propertyId, dueType, month, share);
    for i := 0 to |tenancies|
      invariant db.Snapshot() == InsertDues(old(db.Snapshot()), dues[..i])
    {
      assert dues[..i + 1][..i] == dues[..i];
      var _ := CreateDue(db, NewDue(tenancies[i], propertyId, dueType, month, share));
    }
    assert dues[..|tenancies|] == dues;
  }

  method CreateDueForTenant(db: Database, tenantId: Id, propertyId: Id, ownerId: Id, dueType: DueType, amount: Money,
          month: Month)
    returns (r: Result<Id>, ghost found: Option<Id>)
    modifies db`nextId, db`dues
    ensures Reply(db.Snapshot(), r)
            == DueRules.CreateDueForTenant(old(db.Snapshot()), found, tenantId, propertyId, ownerId, dueType, amount,
                month)
    ensures r.Err? ==> r == Err(BadRequest)
    ensures r.Err? ==> db.Snapshot() == old(db.Snapshot())
    ensures found.None? <==> forall t :: !IsLiveOf(old(db.Snapshot()), t, tenantId, propertyId)
    ensures r.Ok? <==> found.Some? && IsOwner(old(db.Snapshot()), ownerId, propertyId) && amount > 0.0
    ensures r.Ok? ==>
              && r.value in db.dues && db.dues == old(db.dues)[r.value := db.dues[r.value]]
              && Asks(db.dues[r.value], propertyId, dueType, month, amount)
              && IsLiveOf(old(db.Snapshot()), db.dues[r.value].tenancyId, tenantId, propertyId)
    ensures Inv(old(db.Snapshot())) ==> Inv(db.Snapshot()) && (r.Ok? ==> r.value !in old(db.dues))
  {
    hide Billable, Inv, IsLiveOf, TenanciesOf;
    ghost var s := db.Snapshot();
    FoundIsTenancy(s, tenantId, propertyId);
    LiveTenanciesExactly(s, tenantId, propertyId);
    if Inv(s) {
      forall t {
        CreateDueKeepsInv(s, t, tenantId, propertyId, ownerId, dueType, amount, month);
      }
      DuesAreFresh(s);
    }
    var tenancy := FindTenancy(db, tenantId, propertyId);
    found := tenancy;
    if tenancy.None? || !Owns(db.Snapshot(), ownerId, propertyId) {
      return Err(BadRequest), found;
    }
    if amount <= 0.0 {
      return Err(BadRequest), found;
    }
    var id := CreateDue(db, NewDue(tenancy.value, propertyId, dueType, month, amount));
    return Ok(id), found;
  }

  // ------------------------------------------------------- deleting and editing

  /**
   Removes the due and, from the transactions that were to pay it, the pointer to it. In a sound database only the
   owner, the status and payment lines decide.
   */
  method DeleteDue(db: Database, dueId: Id, ownerId: Id) returns (r: Result<()>)
    modifies db`dues, db`transactions
    ensures Reply(db.Snapshot(), r) == DueRules.DeleteDue(old(db.Snapshot()), dueId, ownerId)
    ensures r == Err(NotFound)
        <==> dueId !in old(db.dues) || !IsOwner(old(db.Snapshot()), ownerId, old(db.dues)[dueId].propertyId)
    ensures r == Err(BadRequest)
        <==> && dueId in old(db.dues) && IsOwner(old(db.Snapshot()), ownerId, old(db.dues)[dueId].propertyId)
             && old(db.dues)[dueId].status != Unpaid
    ensures r.Err? ==> r.error in {NotFound, BadRequest, ConstraintViolation}
    ensures r.Err? ==> db.Snapshot() == old(db.Snapshot())
    ensures r.Ok? ==>
              && dueId in old(db.dues) && old(db.dues)[dueId].status == Unpaid
              && db.dues == old(db.dues) - {dueId}
              && db.transactions.Keys == old(db.transactions).Keys
              && forall t :: t in db.transactions ==>
                   db.transactions[t] == if old(db.transactions)[t].dueId == Some(dueId)
                                         then old(db.transactions)[t].(dueId := None) else old(db.transactions)[t]
    ensures Inv(old(db.Snapshot())) ==>
              && Inv(db.Snapshot())
              && (r.Ok? <==> && dueId in old(db.dues)
                             && IsOwner(old(db.Snapshot()), ownerId, old(db.dues)[dueId].propertyId)
                             && old(db.dues)[dueId].status == Unpaid && !OnPaymentLine(old(db.Snapshot()), dueId))
  {
    hide Referenced, OnPaymentLine, Inv;
    ghost var s := db.Snapshot();
    if Inv(s) {
      DeleteDueKeepsInv(s, dueId, ownerId);
      DeletableExactly(s, dueId, ownerId);
    }
    if dueId !in db.dues || !Owns(db.Snapshot(), ownerId, db.dues[dueId].propertyId) {
      return Err(NotFound);
    }
    if db.dues[dueId].status != Unpaid {
      return Err(BadRequest);
    }
    var ok := DeleteDues(db, {dueId});
    return if ok then Ok(()) else Err(ConstraintViolation);
  }

  /**
   Changes at most total, balance, type and month, of a due that nothing was paid into. In a sound database the whole
   new total is then open.
   */
  method EditDue(db: Database, dueId: Id, edit: DueEdit, ownerId: Id) returns (r: Result<()>)
    modifies db`dues
    ensures Reply(db.Snapshot(), r) == DueRules.EditDue(old(db.Snapshot()), dueId, edit, ownerId)
    ensures r.Err? ==> db.dues == old(db.dues)
    ensures r == Err(NotFound)
        <==> dueId !in old(db.dues) || !IsOwner(old(db.Snapshot()), ownerId, old(db.dues)[dueId].propertyId)
    ensures r.Err? ==> r.error in {NotFound, BadRequest}
    ensures r.Ok? ==>
              && dueId in old(db.dues) && dueId in db.dues && db.dues == old(db.dues)[dueId := db.dues[dueId]]
              && var before, after := old(db.dues)[dueId], db.dues[dueId];
              && after == Due(before.tenancyId, before.propertyId,
                              if edit.dueType.Some? then edit.dueType.value else before.dueType,
                              if edit.month.Some? then edit.month.value else before.month,
                              if edit.amount.Some? then edit.amount.value else before.total, before.paid,
                              after.balance, before.status)
              && after.balance == (if edit.amount.None? then before.balance
                                   else if edit.amount.value <= before.paid then 0.0
                                   else edit.amount.value - before.paid)
    ensures r.Ok? <==>
              && dueId in old(db.dues) && IsOwner(old(db.Snapshot()), ownerId, old(db.dues)[dueId].propertyId)
              && old(db.dues)[dueId].status != Paid && old(db.dues)[dueId].status != Partial
              && (if edit.amount.Some? then edit.amount.value else old(db.dues)[dueId].total) > 0.0
    ensures Inv(old(db.Snapshot())) ==>
              Inv(db.Snapshot()) && (r.Ok? ==>
                    db.dues[dueId].balance == db.dues[dueId].total && db.dues[dueId].paid == 0.0)
  {
    hide Inv;
    ghost var s := db.Snapshot();
    if Inv(s) {
      EditDueKeepsInv(s, dueId, edit, ownerId);
      if DueRules.EditDue(s, dueId, edit, ownerId).result.Ok? {
        EditIsExact(s, dueId, edit, ownerId);
      }
    }
    if dueId !in db.dues || !Owns(db.Snapshot(), ownerId, db.dues[dueId].propertyId) {
      return Err(NotFound);
    }
    var due := db.dues[dueId];
    if due.status == Paid || due.status == Partial {
      return Err(BadRequest);
    }
    var newTotal := if edit.amount.Some? then edit.amount.value else due.total;
    if newTotal <= 0.0 {
      return Err(BadRequest);
    }
    var newBalance := Max(newTotal - due.paid, 0.0);
    if edit.amount.Some? {
      due := due.(total := newTotal, balance := newBalance);
    }
    if edit.dueType.Some? {
      due := due.(dueType := edit.dueType.value);
    }
    if edit.month.Some? {
      due := due.(month := edit.month.value);
    }
    db.dues := db.dues[dueId := due];
    return Ok(());
  }

  // ----------------------------------------------------------------- collecting

  /** One payment row has come, and the amount has moved from balance to paid. */
  ghost predicate Collected(s: State, s': State, dueId: Id, amount: Money, payment: Id) {
    && dueId in s.dues && dueId in s'.dues && s'.dues == s.dues[dueId := s'.dues[dueId]]
    && Taken(s.dues[dueId], s'.dues[dueId], amount)
    && payment in s'.payments && s'.payments == s.payments[payment := s'.payments[payment]]
    && s'.payments[payment] == Payment(dueId, s.dues[dueId].tenancyId, s.dues[dueId].propertyId, amount)
  }

  lemma CollectedRows(s: State, dueId: Id, amount: real)
    ensures var r := DueRules.CollectDue(s, dueId, amount);
            r.result.Ok? ==> Collected(s, r.db, dueId, Ceil(amount) as real, r.result.value)
  {
    hide Ceil, PayInto, Taken;
    if DueRules.CollectDue(s, dueId, amount).result.Ok? {
      TakenExactly(s.dues[dueId], Ceil(amount) as real);
    }
  }

  /** The amount has moved from balance to paid; the due is paid exactly if nothing is left. */
  predicate Taken(before: Due, after: Due, amount: Money) {
    && after == before.(paid := before.paid + amount, balance := before.balance - amount, status := after.status)
    && after.status == (if after.balance == 0.0 then Paid else Partial)
  }

  /** Up to the balance, the code's subtraction is the clamped one. */
  lemma TakenExactly(due: Due, amount: Money)
    requires 0.0 < amount <= due.balance
    ensures PayInto(due, amount)
         == due.(paid := due.paid + amount, balance := due.balance - amount,
                 status := if due.balance - amount == 0.0 then Paid else Partial)
    ensures Taken(due, PayInto(due, amount), amount)
  {
  }

  /** In a sound database the collected amount is added to what was paid into the due. */
  lemma CollectedSum(s: State, dueId: Id, amount: real)
    requires Inv(s) && DueRules.CollectDue(s, dueId, amount).result.Ok?
    ensures var r := DueRules.CollectDue(s, dueId, amount);
            && r.result.value !in s.payments
            && PaidInto(r.db.payments, dueId) == PaidInto(s.payments, dueId) + Ceil(amount) as real
  {
    hide Inv, Ceil, PaidInto, PayInto;
    PaymentIdIsFresh(s);
    PaidIntoAdd(s.payments, s.nextId, PaymentFor(dueId, s.dues[dueId], Ceil(amount) as real), dueId);
  }

  method CollectDue(db: Database, dueId: Id, amount: real) returns (r: Result<Id>)
    modifies db`nextId, db`dues, db`payments
    ensures Reply(db.Snapshot(), r) == DueRules.CollectDue(old(db.Snapshot()), dueId, amount)
    ensures r.Err? ==> db.Snapshot() == old(db.Snapshot())
    ensures r.Ok? <==>
              && dueId in old(db.dues) && old(db.dues)[dueId].status != Paid && old(db.dues)[dueId].status != Waived
              && 1 <= Ceil(amount) && Ceil(amount) as real <= old(db.dues)[dueId].balance
    ensures r.Err? ==> r == Err(if dueId in old(db.dues) then BadRequest else NotFound)
    ensures r.Ok? ==> Collected(old(db.Snapshot()), db.Snapshot(), dueId, Ceil(amount) as real, r.value)
    ensures Inv(old(db.Snapshot())) ==>
              && Inv(db.Snapshot())
              && (r.Ok? ==> && r.value !in old(db.payments)
                            && PaidInto(db.payments, dueId) == old(PaidInto(db.payments, dueId)) + Ceil(amount) as real)
  {
    hide Inv, Ceil, PaidInto, PayInto, Collected;
    ghost var s := db.Snapshot();
    if Inv(s) {
      CollectDueKeepsInv(s, dueId, amount);
      if DueRules.CollectDue(s, dueId, amount).result.Ok? {
        CollectedSum(s, dueId, amount);
      }
    }
    CollectedRows(s, dueId, amount);
    if dueId in s.dues && 0.0 < Ceil(amount) as real <= s.dues[dueId].balance {
      TakenExactly(s.dues[dueId], Ceil(amount) as real);
    }
    if dueId !in db.dues {
      return Err(NotFound);
    }
    var due := db.dues[dueId];
    if due.status == Paid || due.status == Waived {
      return Err(BadRequest);
    }
    var collectAmount := Ceil(amount) as real;
    if collectAmount <= 0.0 || collectAmount > due.balance {
      return Err(BadRequest);
    }
    var newPaid := due.paid + collectAmount;
    var newBalance := due.balance - collectAmount;
    var newStatus := if newBalance == 0.0 then Paid else Partial;
    var payment := db.nextId;
    db.nextId := payment + 1;
    db.payments := db.payments[payment := Payment(dueId, due.tenancyId, due.propertyId, collectAmount)];
    db.dues := db.dues[dueId := due.(paid := newPaid, balance := newBalance, status := newStatus)];
    return Ok(payment);
  }
}
