/** Every due and billing operation keeps the invariant; what a collection and a split amount to. */
module DueProofs {
  import opened DueRules
  import opened Invariants
  import opened Numbers
  import opened Queries
  import opened Tables
  import opened Text

  lemma AddDueKeepsInv(s: State, found: Option<Id>, tenantId: Id, propertyId: Id, dueType: DueType, amount: real,
          month: Month)
    requires Inv(s)
    requires found.Some? && IsTenancyOf(s, found.value, tenantId, propertyId) ==> Ceil(amount) >= 0
    ensures Inv(AddDueToTenant(s, found, tenantId, propertyId, dueType, amount, month).db)
  {
    hide Inv, InsertDue, Ceil;
    if found.Some? && IsTenancyOf(s, found.value, tenantId, propertyId) {
      InsertDueKeeps(s, NewDue(found.value, propertyId, dueType, month, Ceil(amount) as real));
    }
  }

  /**
   The add-due request does not check its amount. The ledger survives an accepted request exactly
   when the amount rounds up to zero or more.
   */
  lemma AddDueLedgerCondition(s: State, tenancyId: Id, tenantId: Id, propertyId: Id, dueType: DueType, amount: real,
          month: Month)
    requires Inv(s) && IsTenancyOf(s, tenancyId, tenantId, propertyId)
    ensures var s' := AddDueToTenant(s, Some(tenancyId), tenantId, propertyId, dueType, amount, month).db;
            LedgerOk(s'.dues, s'.payments) <==> Ceil(amount) >= 0
  {
    hide Ceil, PaidInto;
    var s' := AddDueToTenant(s, Some(tenancyId), tenantId, propertyId, dueType, amount, month).db;
    if Ceil(amount) >= 0 {
      AddDueKeepsInv(s, Some(tenancyId), tenantId, propertyId, dueType, amount, month);
    } else {
      NegativeDueBreaks(s', s.nextId);
    }
  }

  lemma AddDueToRoomKeepsInv(s: State, order: seq<Id>, roomId: Id, propertyId: Id, dueType: DueType, totalAmount: real,
          month: Month)
    requires Inv(s) && Lists(order, RoomTenancies(s, roomId, propertyId))
    requires |order| > 0 ==> ShareOf(totalAmount, |order|) >= 0
    ensures Inv(AddDueToRoom(s, order, roomId, propertyId, dueType, totalAmount, month).db)
  {
    hide ShareOf, InsertDues, FreshIds, DebtOk, LedgerOk, TransactionsOk, SettledOk, PendingOk, ReadingsOk, OccupancyOk;
    if AddDueToRoom(s, order, roomId, propertyId, dueType, totalAmount, month).result.Ok? {
      RoomDuesAddable(s, order, roomId, propertyId, dueType, totalAmount, month);
      InsertDuesKeeps(s, RoomDues(order, propertyId, dueType, month, ShareOf(totalAmount, |order|) as real));
    }
  }

  lemma RoomDuesAddable(s: State, order: seq<Id>, roomId: Id, propertyId: Id, dueType: DueType, totalAmount: real,
          month: Month)
    requires |order| > 0 && ShareOf(totalAmount, |order|) >= 0
    requires Lists(order, RoomTenancies(s, roomId, propertyId))
    ensures var dues := RoomDues(order, propertyId, dueType, month, ShareOf(totalAmount, |order|) as real);
            forall i :: 0 <= i < |dues| ==> Addable(s, dues[i])
  {
    hide ShareOf;
    forall i | 0 <= i < |order|
      ensures order[i] in RoomTenancies(s, roomId, propertyId)
    {
      assert order[i] in order;
    }
  }

  /** The room request checks no amount either: the ledger survives exactly when the rounded share is not negative. */
  lemma RoomDueLedgerCondition(s: State, order: seq<Id>, roomId: Id, propertyId: Id, dueType: DueType,
          totalAmount: real,
          month: Month)
    requires Inv(s) && Lists(order, RoomTenancies(s, roomId, propertyId)) && |order| > 0
    ensures var r := AddDueToRoom(s, order, roomId, propertyId, dueType, totalAmount, month);
            && r.result.Ok?
            && (LedgerOk(r.db.dues, r.db.payments) <==> ShareOf(totalAmount, |order|) >= 0)
  {
    hide ShareOf, InsertDues, Inv, LedgerOk;
    RoomExists(s, order, roomId, propertyId);
    if ShareOf(totalAmount, |order|) >= 0 {
      AddDueToRoomKeepsInv(s, order, roomId, propertyId, dueType, totalAmount, month);
      LedgerOfInv(AddDueToRoom(s, order, roomId, propertyId, dueType, totalAmount, month).db);
    } else {
      var dues := RoomDues(order, propertyId, dueType, month, ShareOf(totalAmount, |order|) as real);
      DuesAreFresh(s);
      InsertDuesExact(s, dues);
      assert dues[0].total < 0.0 && InsertDues(s, dues).dues[s.nextId + 0] == dues[0];
      NegativeDueBreaks(InsertDues(s, dues), s.nextId);
    }
  }

  lemma RoomExists(s: State, order: seq<Id>, roomId: Id, propertyId: Id)
    requires Inv(s) && Lists(order, RoomTenancies(s, roomId, propertyId)) && |order| > 0
    ensures roomId in s.rooms && s.rooms[roomId].propertyId == propertyId
  {
    assert order[0] in order;
    assert TenancyOk(s.rooms, s.tenancies[order[0]]);
  }

  lemma LedgerOfInv(s: State)
    requires Inv(s)
    ensures LedgerOk(s.dues, s.payments)
  {
  }

  lemma NegativeDueBreaks(s: State, d: Id)
    requires d in s.dues && s.dues[d].total < 0.0
    ensures !LedgerOk(s.dues, s.payments)
  {
    hide PaidInto;
    assert !DueOk(s.dues[d], PaidInto(s.payments, d));
  }

  /** Each tenant's share is rounded up: together they cover the total, with less than one rupee per tenant on top. */
  lemma RoomShareBounds(totalAmount: real, count: int)
    requires count > 0
    ensures totalAmount <= Times(ShareOf(totalAmount, count) as real, count) < totalAmount + count as real
  {
    hide Ceil;
    var q := totalAmount / count as real;
    var share := Ceil(q) as real;
    assert q <= share < q + 1.0;
    TimesMonotone(q, share, q + 1.0, count);
    assert Times(q, count) == totalAmount;
    assert Times(q + 1.0, count) == totalAmount + count as real;
  }

  lemma TimesMonotone(a: real, b: real, c: real, n: int)
    requires a <= b < c && n > 0
    ensures Times(a, n) <= Times(b, n) < Times(c, n)
  {
  }

  lemma CreateDueKeepsInv(s: State, found: Option<Id>, tenantId: Id, propertyId: Id, ownerId: Id, dueType: DueType,
          amount: Money, month: Month)
    requires Inv(s)
    ensures Inv(CreateDueForTenant(s, found, tenantId, propertyId, ownerId, dueType, amount, month).db)
  {
    hide Inv, InsertDue;
    if found.Some? && IsTenancyOf(s, found.value, tenantId, propertyId) && amount > 0.0 {
      InsertDueKeeps(s, NewDue(found.value, propertyId, dueType, month, amount));
    }
  }

  lemma DeleteDueKeepsInv(s: State, dueId: Id, ownerId: Id)
    requires Inv(s)
    ensures Inv(DeleteDue(s, dueId, ownerId).db)
  {
    hide Inv, RemoveDues, Referenced;
    if DeleteDue(s, dueId, ownerId).result.Ok? {
      RemoveDuesKeeps(s, {dueId});
    }
  }

  /** Some payment line names the due. */
  ghost predicate OnPaymentLine(s: State, dueId: Id) {
    exists t :: t in s.transactions && HasLine(s.transactions[t], dueId)
  }

  /** Of the due's foreign keys only payment lines can stand in the way: an unpaid due has no payments. */
  lemma DeletableExactly(s: State, dueId: Id, ownerId: Id)
    requires Inv(s)
    ensures DeleteDue(s, dueId, ownerId).result.Ok?
            <==> dueId in s.dues && Owns(s, ownerId, s.dues[dueId].propertyId) && s.dues[dueId].status == Unpaid
                 && !OnPaymentLine(s, dueId)
  {
    hide FreshIds, OccupancyOk, DebtOk, TransactionsOk, SettledOk, PendingOk, ReadingsOk, Owns, RemoveDues, LedgerOk;
    if dueId in s.dues && s.dues[dueId].status == Unpaid {
      UnpaidHasNoPayments(s, dueId);
    }
  }

  lemma EditDueKeepsInv(s: State, dueId: Id, edit: DueEdit, ownerId: Id)
    requires Inv(s)
    ensures Inv(EditDue(s, dueId, edit, ownerId).db)
  {
    hide Inv, PaidInto;
    if EditDue(s, dueId, edit, ownerId).result.Ok? {
      DueRowOk(s, dueId);
      ReplaceDueKeeps(s, dueId, EditDue(s, dueId, edit, ownerId).db.dues[dueId]);
    }
  }

  lemma DueRowOk(s: State, dueId: Id)
    requires Inv(s) && dueId in s.dues
    ensures DueOk(s.dues[dueId], PaidInto(s.payments, dueId))
  {
    hide PaidInto, DueOk;
  }

  /** Rewriting a due row of the same tenancy and property without reopening it. */
  lemma ReplaceDueKeeps(s: State, dueId: Id, due: Due)
    requires Inv(s) && dueId in s.dues
    requires due.tenancyId == s.dues[dueId].tenancyId && due.propertyId == s.dues[dueId].propertyId
    requires DueOk(due, PaidInto(s.payments, dueId))
    requires Open(due.status) ==> Open(s.dues[dueId].status)
    ensures Inv(s.(dues := s.dues[dueId := due]))
  {
    hide PaidInto, DueOk, TransactionOk, SettledOk, PendingOk, OccupancyOk, ReadingsOk;
    var s' := s.(dues := s.dues[dueId := due]);
    assert TransactionsOk(s'.transactions, s'.dues) by {
      forall t | t in s.transactions
        ensures TransactionOk(s'.dues, s.transactions[t])
      {
        TransactionKept(s.dues, s'.dues, s.transactions[t]);
      }
    }
    assert ReadingsOk(s') by { ReadingsKept(s, s'); }
  }

  lemma TransactionKept(dues: Dues, dues': Dues, t: Transaction)
    requires TransactionOk(dues, t) && dues.Keys <= dues'.Keys
    ensures TransactionOk(dues', t)
  {
    assert forall d :: d in dues ==> d in dues.Keys;
  }

  lemma CollectDueKeepsInv(s: State, dueId: Id, amount: real)
    requires Inv(s)
    ensures Inv(CollectDue(s, dueId, amount).db)
  {
    hide Inv, RecordPayment, Ceil;
    if CollectDue(s, dueId, amount).result.Ok? {
      RecordPaymentKeeps(s, dueId, Ceil(amount) as real);
    }
  }

  // ------------------------------------------------- consequences for one due

  /** A settled balance means paid, except for dues that never asked for anything. */
  lemma ZeroBalanceIsPaidOrFree(s: State, dueId: Id)
    requires Inv(s) && dueId in s.dues
    ensures s.dues[dueId].balance == 0.0 <==> s.dues[dueId].status == Paid || s.dues[dueId].total == 0.0
    ensures s.dues[dueId].balance >= 0.0
  {
    hide PaidInto;
    assert DueOk(s.dues[dueId], PaidInto(s.payments, dueId));
  }

  /** Collecting never overpays: the balance falls by exactly the collected amount. */
  lemma CollectTakesFromBalance(s: State, dueId: Id, amount: real)
    requires Inv(s) && CollectDue(s, dueId, amount).result.Ok?
    ensures var due, due' := s.dues[dueId], CollectDue(s, dueId, amount).db.dues[dueId];
            && due'.paid - due.paid == due.balance - due'.balance == Ceil(amount) as real >= 1.0
            && due'.total == due.total
            && due'.paid <= due'.total
  {
    hide PaidInto, Ceil;
    assert DueOk(s.dues[dueId], PaidInto(s.payments, dueId));
    CollectDueKeepsInv(s, dueId, amount);
    var s' := CollectDue(s, dueId, amount).db;
    assert DueOk(s'.dues[dueId], PaidInto(s'.payments, dueId));
  }

  lemma WholeDifference(x: real, n: int)
    ensures Whole(x - n as real) <==> Whole(x)
  {
    assert (x - n as real).Floor == x.Floor - n;
  }

  /**
   Cash is collected in whole rupees, so one collection can clear a due exactly when its balance is
   positive and whole; the paise of a balance never change by collecting.
   */
  lemma CashClearsWholeBalances(s: State, dueId: Id)
    requires Inv(s) && dueId in s.dues && s.dues[dueId].status != Paid
    ensures (exists amount: real :: Clears(s, dueId, amount))
            <==> s.dues[dueId].balance > 0.0 && Whole(s.dues[dueId].balance)
  {
    hide Inv, Whole, Clears;
    var balance := s.dues[dueId].balance;
    if balance > 0.0 && Whole(balance) {
      WholeBalanceClears(s, dueId);
    }
    forall amount: real | Clears(s, dueId, amount)
      ensures balance > 0.0 && Whole(balance)
    {
      ClearedBalanceWasWhole(s, dueId, amount);
    }
  }

  /** One collection of this amount pays the due off. */
  ghost predicate Clears(s: State, dueId: Id, amount: real)
    requires dueId in s.dues
  {
    CollectDue(s, dueId, amount).result.Ok? && CollectDue(s, dueId, amount).db.dues[dueId].status == Paid
  }

  lemma WholeBalanceClears(s: State, dueId: Id)
    requires Inv(s) && dueId in s.dues && s.dues[dueId].status != Paid
    requires s.dues[dueId].balance > 0.0 && Whole(s.dues[dueId].balance)
    ensures Clears(s, dueId, s.dues[dueId].balance)
  {
    hide Inv, Ceil;
    NotWaived(s, dueId);
    CeilOfWhole(s.dues[dueId].balance);
  }

  lemma ClearedBalanceWasWhole(s: State, dueId: Id, amount: real)
    requires dueId in s.dues && Clears(s, dueId, amount)
    ensures s.dues[dueId].balance > 0.0 && Whole(s.dues[dueId].balance)
  {
    hide Ceil;
    assert s.dues[dueId].balance == Ceil(amount) as real;
  }

  lemma NotWaived(s: State, dueId: Id)
    requires Inv(s) && dueId in s.dues
    ensures s.dues[dueId].status != Waived && s.dues[dueId].status != Overdue
  {
    hide PaidInto;
    assert DueOk(s.dues[dueId], PaidInto(s.payments, dueId));
  }

  /** Collecting keeps the paise of the balance. */
  lemma CollectKeepsPaise(s: State, dueId: Id, amount: real)
    requires CollectDue(s, dueId, amount).result.Ok?
    ensures Whole(CollectDue(s, dueId, amount).db.dues[dueId].balance) <==> Whole(s.dues[dueId].balance)
  {
    hide Ceil, Whole;
    WholeDifference(s.dues[dueId].balance, Ceil(amount));
  }

  /** Any number of collections, each attempted on what the one before left. */
  function CollectAll(s: State, dueId: Id, amounts: seq<real>): State {
    if amounts == [] then s
    else CollectDue(CollectAll(s, dueId, amounts[..|amounts| - 1]), dueId, amounts[|amounts| - 1]).db
  }

  lemma {:induction false} CollectionsKeepPaise(s: State, dueId: Id, amounts: seq<real>)
    requires Inv(s) && dueId in s.dues
    ensures var s' := CollectAll(s, dueId, amounts);
            Inv(s') && dueId in s'.dues && (Whole(s'.dues[dueId].balance) <==> Whole(s.dues[dueId].balance))
    decreases |amounts|
  {
    hide Inv, Whole, CollectDue;
    if amounts != [] {
      var before, amount := CollectAll(s, dueId, amounts[..|amounts| - 1]), amounts[|amounts| - 1];
      CollectionsKeepPaise(s, dueId, amounts[..|amounts| - 1]);
      CollectDueKeepsInv(before, dueId, amount);
      if CollectDue(before, dueId, amount).result.Ok? {
        CollectKeepsPaise(before, dueId, amount);
      } else {
        RefusedCollection(before, dueId, amount);
      }
      CollectedDueStays(before, dueId, amount);
    }
  }

  lemma RefusedCollection(s: State, dueId: Id, amount: real)
    requires CollectDue(s, dueId, amount).result.Err?
    ensures CollectDue(s, dueId, amount).db == s
  {
    hide RecordPayment, Ceil;
  }

  lemma CollectedDueStays(s: State, dueId: Id, amount: real)
    requires dueId in s.dues
    ensures dueId in CollectDue(s, dueId, amount).db.dues
  {
    hide Ceil, PayInto;
  }

  /** Some sequence of collections pays the due off. */
  ghost predicate CollectionsClear(s: State, dueId: Id, amounts: seq<real>) {
    var s' := CollectAll(s, dueId, amounts);
    dueId in s'.dues && s'.dues[dueId].status == Paid
  }

  /**
   However it is split up, cash can pay a due off exactly when its balance is a positive whole number of rupees: paise
   can never be cleared in cash.
   */
  lemma CashNeverClearsPaise(s: State, dueId: Id)
    requires Inv(s) && dueId in s.dues && s.dues[dueId].status != Paid
    ensures (exists amounts: seq<real> :: CollectionsClear(s, dueId, amounts))
            <==> s.dues[dueId].balance > 0.0 && Whole(s.dues[dueId].balance)
  {
    hide Inv, Whole, CollectionsClear, Clears, CollectAll;
    var balance := s.dues[dueId].balance;
    if balance > 0.0 && Whole(balance) {
      WholeBalanceClears(s, dueId);
      SingleCollection(s, dueId, balance);
    }
    forall amounts: seq<real> | CollectionsClear(s, dueId, amounts)
      ensures balance > 0.0 && Whole(balance)
    {
      ClearedWasWhole(s, dueId, amounts);
    }
  }

  lemma SingleCollection(s: State, dueId: Id, amount: real)
    requires dueId in s.dues && Clears(s, dueId, amount)
    ensures CollectionsClear(s, dueId, [amount])
  {
    hide CollectDue;
    assert [amount][..0] == [];
    assert CollectAll(s, dueId, []) == s;
    assert CollectAll(s, dueId, [amount]) == CollectDue(s, dueId, amount).db;
    CollectedDueStays(s, dueId, amount);
  }

  lemma ClearedWasWhole(s: State, dueId: Id, amounts: seq<real>)
    requires Inv(s) && dueId in s.dues && s.dues[dueId].status != Paid && CollectionsClear(s, dueId, amounts)
    ensures s.dues[dueId].balance > 0.0 && Whole(s.dues[dueId].balance)
  {
    hide Inv, CollectDue, Whole;
    CollectionsKeepPaise(s, dueId, amounts);
    ZeroBalanceIsPaidOrFree(CollectAll(s, dueId, amounts), dueId);
    ZeroBalanceIsPaidOrFree(s, dueId);
    assert CollectAll(s, dueId, amounts).dues[dueId].balance == 0.0;
    assert Whole(0.0) by { WholeZero(); }
    if s.dues[dueId].balance == 0.0 {
      FreeDueIsNeverCollected(s, dueId, amounts);
    }
  }

  lemma WholeZero()
    ensures Whole(0.0)
  {
  }

  /** Nothing can be collected from a due without balance. */
  lemma {:induction false} FreeDueIsNeverCollected(s: State, dueId: Id, amounts: seq<real>)
    requires dueId in s.dues && s.dues[dueId].balance == 0.0
    ensures CollectAll(s, dueId, amounts) == s
    decreases |amounts|
  {
    hide CollectDue;
    if amounts != [] {
      FreeDueIsNeverCollected(s, dueId, amounts[..|amounts| - 1]);
      NothingToCollect(s, dueId, amounts[|amounts| - 1]);
    }
  }

  lemma NothingToCollect(s: State, dueId: Id, amount: real)
    requires dueId in s.dues && s.dues[dueId].balance == 0.0
    ensures CollectDue(s, dueId, amount).db == s
  {
    hide RecordPayment, Ceil;
  }

  // ------------------------------------------------------------- what was asked for

  /** The new due asks the tenant for the requested amount, rounded up to the rupee, and nothing else changes. */
  lemma AddedDueIsAsked(s: State, found: Option<Id>, tenantId: Id, propertyId: Id, dueType: DueType, amount: real,
          month: Month)
    requires AddDueToTenant(s, found, tenantId, propertyId, dueType, amount, month).result.Ok?
    ensures var r := AddDueToTenant(s, found, tenantId, propertyId, dueType, amount, month);
            && r.result.value in r.db.dues
            && var due := r.db.dues[r.result.value];
            && due.tenancyId in s.tenancies && s.tenancies[due.tenancyId].tenantId == tenantId
            && due.propertyId == s.tenancies[due.tenancyId].propertyId == propertyId
            && due.dueType == dueType && due.month == month && due.status == Unpaid
            && amount <= due.total < amount + 1.0 && due.balance == due.total && due.paid == 0.0
            && r.db.payments == s.payments && r.db.dues == s.dues[r.result.value := due]
  {
  }

  /** Each billable tenancy of the room gets one new due; their sum covers the total, under one rupee over each. */
  lemma RoomDuesAreAsked(s: State, order: seq<Id>, roomId: Id, propertyId: Id, dueType: DueType, totalAmount: real,
          month: Month)
    requires Inv(s) && Lists(order, RoomTenancies(s, roomId, propertyId))
    requires AddDueToRoom(s, order, roomId, propertyId, dueType, totalAmount, month).result.Ok?
    ensures var r := AddDueToRoom(s, order, roomId, propertyId, dueType, totalAmount, month);
            var share := ShareOf(totalAmount, |order|) as real;
            && r.result.value == |order| == |RoomTenancies(s, roomId, propertyId)|
            && totalAmount <= Times(share, |order|) < totalAmount + |order| as real
            && (forall d :: d in r.db.dues <==> d in s.dues || s.nextId <= d < s.nextId + |order|)
            && (forall d :: d in s.dues ==> r.db.dues[d] == s.dues[d])
            && (forall k :: 0 <= k < |order| ==>
                  r.db.dues[s.nextId + k] == NewDue(order[k], propertyId, dueType, month, share))
  {
    hide Inv, ShareOf, InsertDues, RoomTenancies, Times;
    var share := ShareOf(totalAmount, |order|) as real;
    RoomShareBounds(totalAmount, |order|);
    ListSize(order, RoomTenancies(s, roomId, propertyId));
    DuesAreFresh(s);
    var dues := RoomDues(order, propertyId, dueType, month, share);
    InsertDuesExact(s, dues);
    forall k | 0 <= k < |order|
      ensures InsertDues(s, dues).dues[s.nextId + k] == NewDue(order[k], propertyId, dueType, month, share)
    {
      assert dues[k] == NewDue(order[k], propertyId, dueType, month, share);
    }
  }

  /** An edit does what it says: the given fields change, the balance follows the new total, the rest stays. */
  lemma EditIsExact(s: State, dueId: Id, edit: DueEdit, ownerId: Id)
    requires Inv(s) && EditDue(s, dueId, edit, ownerId).result.Ok?
    ensures var due, edited := s.dues[dueId], EditDue(s, dueId, edit, ownerId).db;
            && dueId in edited.dues
            && var due' := edited.dues[dueId];
            && due'.total == (if edit.amount.Some? then edit.amount.value else due.total)
            && due'.dueType == (if edit.dueType.Some? then edit.dueType.value else due.dueType)
            && due'.month == (if edit.month.Some? then edit.month.value else due.month)
            && due'.paid == due.paid == 0.0 && due'.balance == due'.total && due'.status == due.status
            && EditDue(edited, dueId, edit, ownerId) == Reply(edited, Ok(()))
  {
    hide FreshIds, OccupancyOk, DebtOk, TransactionsOk, SettledOk, PendingOk, ReadingsOk, PaidInto;
    assert DueOk(s.dues[dueId], PaidInto(s.payments, dueId));
    var edited := EditDue(s, dueId, edit, ownerId).db;
    assert edited.dues[dueId := edited.dues[dueId]] == edited.dues;
  }
}
