/** Gateway payments: validation, initiation and the webhook that settles a transaction. */
module PaymentRules {
  import opened DueRules
  import opened Numbers
  import opened Tables
  import opened Text

  // -------------------------------------------------------------- validation

  /** The tenancies whose dues a tenant may pay online. */
  function PayableTenancies(s: State, tenantId: Id): set<Id> {
    set t | t in s.tenancies && Billable(s, t) && s.tenancies[t].tenantId == tenantId
  }

  function LineTotal(lines: seq<Line>): Money {
    if lines == [] then 0.0 else LineTotal(lines[..|lines| - 1]) + lines[|lines| - 1].amount
  }

  ghost predicate DistinctDues(lines: seq<Line>) {
    forall i, j :: 0 <= i < j < |lines| ==> lines[i].dueId != lines[j].dueId
  }

  function LineDues(lines: seq<Line>): set<Id> {
    set i | 0 <= i < |lines| :: lines[i].dueId
  }

  /** The rows that the due query returns: one for each id, however often it is listed. */
  function FetchedDues(s: State, lines: seq<Line>, tenancyIds: set<Id>): set<Id> {
    set d | d in LineDues(lines) && d in s.dues && s.dues[d].tenancyId in tenancyIds
  }

  function PropertiesOf(s: State, dueIds: set<Id>): set<Id>
    requires forall d :: d in dueIds ==> d in s.dues
  {
    set d | d in dueIds :: s.dues[d].propertyId
  }

  /** The due of a line is still owed and the line does not exceed its balance. */
  predicate LinePayable(s: State, line: Line) {
    && line.dueId in s.dues
    && s.dues[line.dueId].status != Paid && s.dues[line.dueId].status != Waived
    && line.amount <= s.dues[line.dueId].balance
  }

  predicate AmountsDeclared(totalAmount: Money, lines: seq<Line>) {
    && (forall i :: 0 <= i < |lines| ==> lines[i].amount != 0.0)
    && totalAmount == LineTotal(lines)
  }

  /** validateDueAndAmount accepts the payment for this property. */
  ghost predicate Accepts(s: State, totalAmount: Money, lines: seq<Line>, tenancyIds: set<Id>, propertyId: Id) {
    var fetched := FetchedDues(s, lines, tenancyIds);
    && lines != []
    && AmountsDeclared(totalAmount, lines)
    && |fetched| == |lines|
    && PropertiesOf(s, fetched) == {propertyId}
    && forall i :: 0 <= i < |lines| ==> LinePayable(s, lines[i])
  }

  // -------------------------------------------------------------- initiation

  function NewTransaction(s: State, dueId: Option<Id>, lines: seq<Line>, propertyId: Id, amount: Money): State {
    s.(nextId := s.nextId + 1,
       transactions := s.transactions[s.nextId := Transaction(dueId, lines, propertyId, amount, Initiated)])
  }

  function InitiatePayment(s: State, dueId: Id, tenantId: Id): (r: Reply<Id>)
    ensures r.db == s.(nextId := r.db.nextId, transactions := r.db.transactions)
  {
    if dueId !in s.dues then Fail(s, NotFound)
    else
      var due := s.dues[dueId];
      if due.tenancyId !in s.tenancies || s.tenancies[due.tenancyId].tenantId != tenantId then Fail(s, Unauthorized)
      else if due.status == Paid || due.status == Waived || due.balance <= 0.0 then Fail(s, BadRequest)
      else if due.propertyId !in s.gateways then Fail(s, BadRequest)
      else Reply(NewTransaction(s, Some(dueId), [], due.propertyId, due.balance), Ok(s.nextId))
  }

  /** Amounts are positive whole rupees by the request's own validation. */
  predicate PositiveLines(lines: seq<Line>) {
    forall i :: 0 <= i < |lines| ==> lines[i].amount > 0.0
  }

  predicate WholeLines(lines: seq<Line>) {
    forall i :: 0 <= i < |lines| ==> Whole(lines[i].amount)
  }

  ghost predicate PaymentAccepted(s: State, tenantId: Id, totalAmount: Money, lines: seq<Line>, propertyId: Id) {
    && PositiveLines(lines) && WholeLines(lines)
    && Accepts(s, totalAmount, lines, PayableTenancies(s, tenantId), propertyId)
    && propertyId in s.gateways
  }

  ghost function MakePayment(s: State, tenantId: Id, totalAmount: Money, lines: seq<Line>,
          propertyId: Id): (r: Reply<Id>)
    ensures r.db == s.(nextId := r.db.nextId, transactions := r.db.transactions)
  {
    if PaymentAccepted(s, tenantId, totalAmount, lines, propertyId)
    then Reply(NewTransaction(s, None, lines, propertyId, totalAmount), Ok(s.nextId))
    else Fail(s, BadRequest)
  }

  // ----------------------------------------------------------------- webhook

  /** What the gateway reports, lower-cased. */
  datatype GatewayStatus = GatewaySuccess | UserCancelled | OtherStatus

  datatype Callback = UnknownTransaction | Answered(status: TransactionStatus, verified: bool)

  function SetStatus(s: State, txn: Id, status: TransactionStatus): State
    requires txn in s.transactions
  {
    s.(transactions := s.transactions[txn := s.transactions[txn].(status := status)])
  }

  function ProcessSingleDue(s: State, txn: Id, dueId: Id): State
    requires txn in s.transactions
  {
    if dueId !in s.dues then s
    else if s.dues[dueId].status == Paid then SetStatus(s, txn, Success)
    else SetStatus(RecordPayment(s, dueId, s.dues[dueId], s.transactions[txn].amount), txn, Success)
  }

  /** Pay the lines in order; the due rows were read before the first one was paid. */
  function PayLines(s: State, read: Dues, lines: seq<Line>): State
    decreases |lines|
  {
    if lines == [] then s
    else
      var before, line := PayLines(s, read, lines[..|lines| - 1]), lines[|lines| - 1];
      if line.dueId !in read || read[line.dueId].status == Paid then before
      else RecordPayment(before, line.dueId, read[line.dueId], line.amount)
  }

  lemma {:induction false} PayLinesFrame(s: State, read: Dues, lines: seq<Line>)
    ensures PayLines(s, read, lines) == s.(nextId := PayLines(s, read, lines).nextId,
                                           dues := PayLines(s, read, lines).dues,
                                           payments := PayLines(s, read, lines).payments)
  {
    if lines != [] {
      PayLinesFrame(s, read, lines[..|lines| - 1]);
    }
  }

  function ProcessMultiDue(s: State, txn: Id): State
    requires txn in s.transactions
  {
    var lines := s.transactions[txn].lines;
    if |lines| == 0 then s
    else
      PayLinesFrame(s, s.dues, lines);
      SetStatus(PayLines(s, s.dues, lines), txn, Success)
  }

  function ProcessSuccessfulPayment(s: State, txn: Id): State
    requires txn in s.transactions
  {
    if s.transactions[txn].dueId.Some? then ProcessSingleDue(s, txn, s.transactions[txn].dueId.value)
    else ProcessMultiDue(s, txn)
  }

  /** The settlement row of a paid transaction and the property's pending amount. */
  function Settle(s: State, txn: Id, propertyId: Id, amount: Money): State {
    var pending := if propertyId in s.pendingSettlement then s.pendingSettlement[propertyId] else 0.0;
    s.(settlements := s.settlements[txn := Settlement(propertyId, amount)],
       pendingSettlement := s.pendingSettlement[propertyId := pending + amount])
  }

  function HandleWebhook(s: State, txn: Id, hashValid: bool, status: GatewayStatus): Reply<Callback> {
    if txn !in s.transactions then Reply(s, Ok(UnknownTransaction))
    else
      var t := s.transactions[txn];
      if t.status != Initiated then Reply(s, Ok(Answered(t.status, true)))
      else if t.propertyId !in s.gateways then Reply(s, Ok(Answered(Failed, false)))
      else if !hashValid then Reply(SetStatus(s, txn, Failed), Ok(Answered(Failed, false)))
      else if status == GatewaySuccess then
        var paid := ProcessSuccessfulPayment(s, txn);
        if txn in paid.settlements then Reply(paid, Err(ConstraintViolation))
        else Reply(Settle(paid, txn, t.propertyId, t.amount), Ok(Answered(Success, true)))
      else
        var answer := if status == UserCancelled then Cancelled else Failed;
        Reply(SetStatus(s, txn, answer), Ok(Answered(answer, true)))
  }
}
