/** What the invariant and the progress of runs mean for rooms, tenants, dues and payments, in any reachable state. */
module Safety {
  import opened Calendar
  import opened DueRules
  import opened ElectricityRules
  import opened ElectricityUtils
  import opened Invariants
  import opened PaymentProofs
  import opened PaymentRules
  import opened Sums
  import opened System
  import opened Tables
  import opened TenancyRules
  import opened Text

  // ------------------------------------------------------------------ the start

  /** Properties, rooms and gateway configurations are set up, and nothing has happened yet. */
  ghost predicate Unused(s: State) {
    && s.tenancies == map[] && s.dues == map[] && s.payments == map[] && s.transactions == map[]
    && s.settlements == map[] && s.pendingSettlement == map[] && s.mainReadings == map[] && s.roomReadings == map[]
    && forall r :: r in s.rooms ==> s.rooms[r].occupiedBeds == 0
  }

  lemma UnusedInv(s: State)
    requires Unused(s)
    ensures Inv(s)
  {
    forall r | r in s.rooms
      ensures Beds(s.tenancies, r) == {}
    {
    }
    forall p: Id
      ensures GrossOf(s.settlements, p) == map[]
    {
    }
  }

  /** A state of a run that started with an unused database. */
  ghost predicate Reached(states: seq<State>, steps: seq<Step>, i: nat) {
    IsRun(states, steps) && Unused(states[0]) && i < |states|
  }

  lemma ReachedInv(states: seq<State>, steps: seq<Step>, i: nat)
    requires Reached(states, steps, i)
    ensures Inv(states[i])
  {
    hide Inv, Unused;
    UnusedInv(states[0]);
    RunsKeepInv(states, steps);
  }

  // -------------------------------------------------------------- rooms and tenants

  /** The live tenancies of a room, by their status. */
  ghost function LiveIn(s: State, roomId: Id): set<Id> {
    set t | t in s.tenancies && s.tenancies[t].roomId == roomId
            && s.tenancies[t].status in {Active, NoticePeriod, Pending}
  }

  lemma LiveInIsBeds(s: State, roomId: Id)
    ensures LiveIn(s, roomId) == Beds(s.tenancies, roomId)
  {
    forall t
      ensures t in LiveIn(s, roomId) <==> t in Beds(s.tenancies, roomId)
    {
    }
  }

  /**
   Exact occupancy: each room counts exactly its active, notice-period and pending tenancies; exactly those are
   not soft-deleted; and each tenancy is in the property of its room.
   */
  lemma OccupancyIsExact(states: seq<State>, steps: seq<Step>, i: nat)
    requires Reached(states, steps, i)
    ensures var s := states[i];
            && (forall r :: r in s.rooms ==> s.rooms[r].occupiedBeds == |LiveIn(s, r)|)
            && (forall t :: t in s.tenancies ==>
                  && (s.tenancies[t].deletedAt.None? <==> s.tenancies[t].status in {Active, NoticePeriod, Pending})
                  && s.tenancies[t].roomId in s.rooms
                  && s.tenancies[t].propertyId == s.rooms[s.tenancies[t].roomId].propertyId)
  {
    hide Beds;
    var s := states[i];
    ReachedInv(states, steps, i);
    forall r | r in s.rooms
      ensures s.rooms[r].occupiedBeds == |LiveIn(s, r)|
    {
      LiveInIsBeds(s, r);
    }
  }

  /** No debt leaves with a tenant: what is still owed is owed by somebody who has not exited, where they live. */
  lemma NoDebtLeaves(states: seq<State>, steps: seq<Step>, i: nat, d: Id)
    requires Reached(states, steps, i) && d in states[i].dues
    requires states[i].dues[d].status in {Unpaid, Partial, Overdue}
    ensures var s := states[i];
            var due := s.dues[d];
            && due.tenancyId in s.tenancies
            && s.tenancies[due.tenancyId].status != Exited
            && s.tenancies[due.tenancyId].propertyId == due.propertyId
  {
    ReachedInv(states, steps, i);
  }

  // ---------------------------------------------------------------- dues and payments

  /**
   The ledger of every due: paid is the sum of its payments, the balance is what is missing from the total, and
   the status says which of the three cases it is. A due that nothing is missing from is paid, unless it was free.
   */
  lemma LedgerIsSound(states: seq<State>, steps: seq<Step>, i: nat, d: Id)
    requires Reached(states, steps, i) && d in states[i].dues
    ensures var due, paid := states[i].dues[d], PaidInto(states[i].payments, d);
            && due.paid == paid
            && due.balance == (if due.total > paid then due.total - paid else 0.0)
            && (due.status == Unpaid ==> paid == 0.0)
            && (due.status == Partial ==> 0.0 < paid < due.total)
            && (due.status == Paid ==> due.total <= paid)
            && due.status in {Unpaid, Partial, Paid}
            && (due.balance == 0.0 ==> due.status == Paid || (due.status == Unpaid && due.total == 0.0))
  {
    hide PaidInto;
    ReachedInv(states, steps, i);
    assert DueOk(states[i].dues[d], PaidInto(states[i].payments, d));
  }

  /** Paid is final: the row of a paid due, its payments included, is the same in every later state. */
  lemma PaidIsFinal(states: seq<State>, steps: seq<Step>, i: nat, j: nat, d: Id)
    requires Reached(states, steps, i) && i <= j < |states|
    requires d in states[i].dues && states[i].dues[d].status == Paid
    ensures d in states[j].dues && states[j].dues[d] == states[i].dues[d]
    ensures PaidInto(states[j].payments, d) == PaidInto(states[i].payments, d)
  {
    hide PaidInto, Inv;
    ReachedInv(states, steps, 0);
    RunsProgress(states, steps, i, j);
    LedgerIsSound(states, steps, i, d);
    LedgerIsSound(states, steps, j, d);
  }

  // ----------------------------------------------------------------- transactions

  /**
   A transaction is decided at most once: as soon as it has left INITIATED, its status, amount and property are
   the same in every later state, whatever deliveries follow.
   */
  lemma DecidedIsFinal(states: seq<State>, steps: seq<Step>, i: nat, j: nat, txn: Id)
    requires Reached(states, steps, i) && i <= j < |states|
    requires txn in states[i].transactions && states[i].transactions[txn].status != Initiated
    ensures txn in states[j].transactions
    ensures states[j].transactions[txn].status == states[i].transactions[txn].status
    ensures states[j].transactions[txn].amount == states[i].transactions[txn].amount
    ensures states[j].transactions[txn].propertyId == states[i].transactions[txn].propertyId
  {
    hide Inv;
    ReachedInv(states, steps, 0);
    RunsProgress(states, steps, i, j);
  }

  /**
   Settlements follow success: a transaction that still has its dues has a settlement row exactly when it
   succeeded, and each property's pending amount is the sum of its settlement rows.
   */
  lemma SettlementsFollowSuccess(states: seq<State>, steps: seq<Step>, i: nat)
    requires Reached(states, steps, i)
    ensures forall t :: t in states[i].transactions && !Detached(states[i].transactions[t]) ==>
              (t in states[i].settlements <==> states[i].transactions[t].status == Success)
    ensures forall p: Id :: PendingOf(states[i].pendingSettlement, p) == Total(GrossOf(states[i].settlements, p))
  {
    hide Total, Inv;
    ReachedInv(states, steps, i);
    forall t | t in states[i].transactions && !Detached(states[i].transactions[t]) {
      SettledExactlyOnSuccess(states[i], t);
    }
    PendingIsGross(states[i]);
  }

  lemma PendingIsGross(s: State)
    requires Inv(s)
    ensures forall p: Id :: PendingOf(s.pendingSettlement, p) == Total(GrossOf(s.settlements, p))
  {
    hide Total;
  }
}
