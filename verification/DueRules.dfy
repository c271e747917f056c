/** What the due and billing services do to the ledger: adding, editing, deleting and collecting dues. */
module DueRules {
  import opened Numbers
  import opened Tables
  import opened Text

  /** A tenancy whose dues can be created: live and not soft-deleted. */
  predicate Billable(s: State, tenancyId: Id) {
    tenancyId in s.tenancies && Live(s.tenancies[tenancyId].status) && s.tenancies[tenancyId].deletedAt.None?
  }

  function NewDue(tenancyId: Id, propertyId: Id, dueType: DueType, month: Month, amount: Money): Due {
    Due(tenancyId, propertyId, dueType, month, amount, 0.0, amount, Unpaid)
  }

  function InsertDue(s: State, due: Due): State {
    s.(nextId := s.nextId + 1, dues := s.dues[s.nextId := due])
  }

  /** One due for each listed tenancy, in order. */
  function InsertDues(s: State, dues: seq<Due>): (s': State)
    ensures s' == s.(nextId := s.nextId + |dues|, dues := s'.dues)
    decreases |dues|
  {
    if dues == [] then s else InsertDue(InsertDues(s, dues[..|dues| - 1]), dues[|dues| - 1])
  }

  // -------------------------------------------------------------- adding dues

  /** The lookup of the tenant's billable tenancy in the property found tenancyId. */
  predicate IsTenancyOf(s: State, tenancyId: Id, tenantId: Id, propertyId: Id) {
    && Billable(s, tenancyId)
    && s.tenancies[tenancyId].tenantId == tenantId
    && s.tenancies[tenancyId].propertyId == propertyId
  }

  /** The rows that this lookup may return. */
  function TenanciesOf(s: State, tenantId: Id, propertyId: Id): set<Id> {
    set t | t in s.tenancies && IsTenancyOf(s, t, tenantId, propertyId)
  }

  function AddDueToTenant(s: State, found: Option<Id>, tenantId: Id, propertyId: Id, dueType: DueType,
                          amount: real, month: Month): (r: Reply<Id>)
    ensures r.db == s.(nextId := r.db.nextId, dues := r.db.dues)
  {
    if found.None? || !IsTenancyOf(s, found.value, tenantId, propertyId) then Fail(s, BadRequest)
    else
      var due := NewDue(found.value, propertyId, dueType, month, Ceil(amount) as real);
      Reply(InsertDue(s, due), Ok(s.nextId))
  }

  /** The billable tenancies of a room. */
  function RoomTenancies(s: State, roomId: Id, propertyId: Id): set<Id> {
    set t | t in s.tenancies && Billable(s, t) && s.tenancies[t].roomId == roomId
        && s.tenancies[t].propertyId == propertyId
  }

  function RoomDues(order: seq<Id>, propertyId: Id, dueType: DueType, month: Month, amount: Money): seq<Due> {
    seq(|order|, i requires 0 <= i < |order| => NewDue(order[i], propertyId, dueType, month, amount))
  }

  /** What each of the tenants is asked for. */
  function ShareOf(totalAmount: real, tenants: int): int
    requires tenants > 0
  {
    Ceil(totalAmount / tenants as real)
  }

  function AddDueToRoom(s: State, order: seq<Id>, roomId: Id, propertyId: Id, dueType: DueType,
                        totalAmount: real, month: Month): (r: Reply<int>)
    ensures r.db == s.(nextId := r.db.nextId, dues := r.db.dues)
  {
    if roomId !in s.rooms || s.rooms[roomId].propertyId != propertyId then Fail(s, BadRequest)
    else if |order| == 0 then Fail(s, BadRequest)
    else
      var share := ShareOf(totalAmount, |order|) as real;
      Reply(InsertDues(s, RoomDues(order, propertyId, dueType, month, share)), Ok(|order|))
  }

  function CreateDueForTenant(s: State, found: Option<Id>, tenantId: Id, propertyId: Id, ownerId: Id,
                              dueType: DueType, amount: Money, month: Month): (r: Reply<Id>)
    ensures r.db == s.(nextId := r.db.nextId, dues := r.db.dues)
  {
    if found.None? || !IsTenancyOf(s, found.value, tenantId, propertyId) || !Owns(s, ownerId, propertyId)
    then Fail(s, BadRequest)
    else if amount <= 0.0 then Fail(s, BadRequest)
    else Reply(InsertDue(s, NewDue(found.value, propertyId, dueType, month, amount)), Ok(s.nextId))
  }

  // ----------------------------------------------------- deleting and editing

  /** Rows whose foreign key forbids deleting the due. */
  predicate Referenced(s: State, dueId: Id) {
    || (exists p :: p in s.payments && s.payments[p].dueId == dueId)
    || (exists t :: t in s.transactions && HasLine(s.transactions[t], dueId))
  }

  predicate HasLine(t: Transaction, dueId: Id) {
    exists i :: 0 <= i < |t.lines| && t.lines[i].dueId == dueId
  }

  /** Deleting dues empties the dueId of the transactions that point at them. */
  function Detach(transactions: Transactions, gone: set<Id>): Transactions {
    map t | t in transactions ::
      if transactions[t].dueId.Some? && transactions[t].dueId.value in gone
      then transactions[t].(dueId := None) else transactions[t]
  }

  function RemoveDues(s: State, gone: set<Id>): State {
    s.(dues := s.dues - gone, transactions := Detach(s.transactions, gone))
  }

  function DeleteDue(s: State, dueId: Id, ownerId: Id): (r: Reply<()>)
    ensures r.db == s.(dues := r.db.dues, transactions := r.db.transactions)
  {
    if dueId !in s.dues || !Owns(s, ownerId, s.dues[dueId].propertyId) then Fail(s, NotFound)
    else if s.dues[dueId].status != Unpaid then Fail(s, BadRequest)
    else if Referenced(s, dueId) then Fail(s, ConstraintViolation)
    else Reply(RemoveDues(s, {dueId}), Ok(()))
  }

  datatype DueEdit = DueEdit(amount: Option<Money>, dueType: Option<DueType>, month: Option<Month>)

  function EditDue(s: State, dueId: Id, edit: DueEdit, ownerId: Id): (r: Reply<()>)
    ensures r.db == s.(dues := r.db.dues)
  {
    if dueId !in s.dues || !Owns(s, ownerId, s.dues[dueId].propertyId) then Fail(s, NotFound)
    else
      var due := s.dues[dueId];
      if due.status == Paid || due.status == Partial then Fail(s, BadRequest)
      else
        var newTotal := if edit.amount.Some? then edit.amount.value else due.total;
        if newTotal <= 0.0 then Fail(s, BadRequest)
        else
          var newBalance := Max(newTotal - due.paid, 0.0);
          var amended := if edit.amount.Some? then due.(total := newTotal, balance := newBalance) else due;
          var typed := if edit.dueType.Some? then amended.(dueType := edit.dueType.value) else amended;
          var moved := if edit.month.Some? then typed.(month := edit.month.value) else typed;
          Reply(s.(dues := s.dues[dueId := moved]), Ok(()))
  }

  // ----------------------------------------------------------------- collecting

  /** A due after paying an amount into it: the balance never goes below zero. */
  function PayInto(due: Due, amount: Money): Due {
    var newBalance := Max(0.0, due.balance - amount);
    due.(paid := due.paid + amount, balance := newBalance, status := if newBalance == 0.0 then Paid else Partial)
  }

  function PaymentFor(dueId: Id, due: Due, amount: Money): Payment {
    Payment(dueId, due.tenancyId, due.propertyId, amount)
  }

  /** Record a payment row and the updated due. */
  function RecordPayment(s: State, dueId: Id, due: Due, amount: Money): State {
    s.(nextId := s.nextId + 1,
       payments := s.payments[s.nextId := PaymentFor(dueId, due, amount)],
       dues := s.dues[dueId := PayInto(due, amount)])
  }

  function CollectDue(s: State, dueId: Id, amount: real): (r: Reply<Id>)
    ensures r.db == s.(nextId := r.db.nextId, dues := r.db.dues, payments := r.db.payments)
  {
    if dueId !in s.dues then Fail(s, NotFound)
    else
      var due := s.dues[dueId];
      if due.status == Paid || due.status == Waived then Fail(s, BadRequest)
      else
        var collected := Ceil(amount) as real;
        if collected <= 0.0 || collected > due.balance then Fail(s, BadRequest)
        else Reply(RecordPayment(s, dueId, due, collected), Ok(s.nextId))
  }
}
