/**
 `PaymentsService.create` and `capture` with `IdempotencyService` as a step system: any number of calls
 interleave at every await, one database statement, provider call or answer per step.

 A call runs at most one transaction, so a transaction is named by its call. Its writes stay in the call's
 own record until the database commits it; the database may abort an open or committing transaction at any
 time, a commit may happen whether or not its caller hears of it, and a process may crash between any two
 steps. Identifiers come from a counter, so the instant at which one is minted does not matter.
 */
module Protocol {
  import opened Options
  import opened Payments
  import opened IdempotencyRecords

  datatype Command =
    | CreateCommand(correlationId: string, idempotencyKey: string, merchantId: Id, amountMinor: int, currency: Currency)
    | CaptureCommand(correlationId: string, idempotencyKey: string, paymentId: Id)

  /** What the routes let through. */
  predicate ValidCommand(cmd: Command) {
    && ValidCorrelationId(cmd.correlationId)
    && (cmd.CreateCommand? ==> ValidAmount(cmd.amountMinor))
  }

  function KeyOf(cmd: Command): RecordKey {
    match cmd
    case CreateCommand(_, key, merchantId, _, _) => RecordKey(CreateScope(merchantId), key)
    case CaptureCommand(_, key, paymentId) => RecordKey(CaptureScope(paymentId), key)
  }

  function RequestOf(cmd: Command): Request {
    match cmd
    case CreateCommand(_, _, merchantId, amountMinor, currency) => CreateRequest(merchantId, amountMinor, currency)
    case CaptureCommand(_, _, paymentId) => CaptureRequest(paymentId)
  }

  datatype Error =
    | KeyReusedWithDifferentRequest
    | RequestInProgress
    | StateNotFound
    | OwnershipLost
    | PaymentNotFound
    | PaymentNotCapturable
    | ConditionalUpdateMissed      // PAYMENT_NOT_CAPTURABLE raised by the guarded update, not by the check
    | ProviderNotConfigured
    | ProviderReferenceMissing
    | ProviderThrew
    | InvalidTransition
    | EventRejected(reason: RecordError)
    | UniqueViolation
    | DatabaseError

  datatype Outcome = Ok(response: Response) | Err(error: Error)

  datatype Phase =
    // getExistingOrStart
    | FirstLookup
    | Inserting
    | SecondLookup
    | Reactivating
    | TakingOver
    // owner of a create
    | ReadyToAuthorize
    | InAuthorize
    | Answered(result: AuthorizeResult, at: Time)
    | InsertingPayment(result: AuthorizeResult, at: Time)
    // owner of a capture
    | ReadyToCapture
    | LockingPayment
    | Checking
    | InCapture
    | UpdatingPayment(captureResult: CaptureResult, at: Time)
    // both
    | RecordingEvent
    | Completing
    | ReadyToCommit
    | AwaitingCommit
    | Closing(cause: Error)
    | Done(outcome: Outcome)
    | Crashed

  datatype Transaction = NotStarted | Open | Committing | Committed | Aborted

  datatype Caller = Caller(
    cmd: Command,
    phase: Phase,
    token: Option<Id>,          // the processing token this call was STARTED with
    resourceId: Id,             // the payment id it then works on
    txn: Transaction,
    paymentLock: bool,
    recordLock: bool,
    row: Option<Payment>,       // the payment row as last read under lock or written
    event: Option<Envelope>,    // the buffered outbox insert
    record: Option<Record>)     // the buffered idempotency update

  /** A provider call as the outside world sees it. */
  datatype Call =
    | AuthorizeCall(caller: nat, key: RecordKey, paymentId: Id, merchantId: Id, amountMinor: int, currency: Currency)
    | CaptureCall(caller: nat, paymentId: Id, reference: string, amountMinor: int, currency: Currency, live: bool)

  /** Which call's commit is behind each durable fact. Bookkeeping only: no step reads it. */
  datatype History = History(
    authorizedBy: map<Id, nat>,
    capturedBy: map<Id, nat>,
    completedBy: map<RecordKey, nat>,
    recordedBy: map<Id, nat>)

  datatype State = State(
    now: Time,
    nextId: Id,
    records: Records,
    payments: Table,
    events: map<Id, Envelope>,
    callers: map<nat, Caller>,
    log: seq<Call>,
    history: History)

  const INIT := State(0, 0, map[], map[], map[], map[], [], History(map[], map[], map[], map[]))

  datatype Step =
    | Tick(now: Time)
    | Arrive(id: nat, cmd: Command)
    | Lookup(id: nat, appNow: Time)
    | TryInsert(id: nat, expiresAt: Time, lost: bool)
    | Reactivate(id: nat, expiresAt: Time, lost: bool)
    | Takeover(id: nat, expiresAt: Time, statementNow: Time, lost: bool)
    | AcquireFails(id: nat)
    | CallAuthorize(id: nat)
    | AuthorizeReturns(id: nat, result: AuthorizeResult, at: Time)
    | AuthorizeThrows(id: nat)
    | Begin(id: nat)
    | BeginFails(id: nat)
    | InsertPayment(id: nat, createdAt: Time)
    | LockPayment(id: nat)
    | CallCapture(id: nat, configured: bool)
    | CaptureReturns(id: nat, captureResult: CaptureResult, at: Time)
    | CaptureThrows(id: nat)
    | UpdatePayment(id: nat)
    | RecordOutbox(id: nat, at: Time)
    | Complete(id: nat)
    | SendCommit(id: nat)
    | StatementFails(id: nat)
    | DbCommit(id: nat)
    | DbAbort(id: nat)
    | CommitAcknowledged(id: nat)
    | CommitFails(id: nat)
    | CloseFailed(id: nat, lost: bool)
    | Crash(id: nat)

  // ----- helpers -----

  predicate In(s: State, id: nat, phase: Phase) {
    id in s.callers && s.callers[id].phase == phase
  }

  function Put(s: State, id: nat, c: Caller): State {
    s.(callers := s.callers[id := c])
  }

  function Finish(s: State, id: nat, error: Error): State
    requires id in s.callers
  {
    Put(s, id, s.callers[id].(phase := Done(Err(error))))
  }

  /** No other transaction holds the payment's row or its uncommitted key. */
  ghost predicate PaymentFree(s: State, id: nat, p: Id) {
    forall d :: d in s.callers && d != id && s.callers[d].paymentLock ==> s.callers[d].resourceId != p
  }

  /** No transaction holds the idempotency row. */
  ghost predicate RecordFree(s: State, k: RecordKey) {
    forall d :: d in s.callers && s.callers[d].recordLock ==> KeyOf(s.callers[d].cmd) != k
  }

  /** The handler of the transaction threw: roll back and go to the catch block. */
  function RollBack(c: Caller, cause: Error): Caller {
    c.(phase := Closing(cause),
       txn := if c.txn == Open then Aborted else c.txn,
       paymentLock := false, recordLock := false)
  }

  function Throw(s: State, id: nat, cause: Error): State
    requires id in s.callers
  {
    Put(s, id, RollBack(s.callers[id], cause))
  }

  predicate InTransaction(phase: Phase) {
    phase.InsertingPayment? || phase.LockingPayment? || phase.Checking? || phase.InCapture?
    || phase.UpdatingPayment? || phase.RecordingEvent? || phase.Completing? || phase.ReadyToCommit?
  }

  /** Phases whose next action is a statement of the open transaction. */
  predicate AtStatement(phase: Phase) {
    InTransaction(phase) && !phase.Checking? && !phase.InCapture?
  }

  predicate Acquiring(phase: Phase) {
    phase.FirstLookup? || phase.Inserting? || phase.SecondLookup? || phase.Reactivating? || phase.TakingOver?
  }

  /** What the call answers once its row is final. */
  function ReplyOf(c: Caller): Response
    requires c.row.Some?
  {
    Response(if c.cmd.CreateCommand? then 201 else 200, ToDto(c.row.value))
  }

  function OperationOf(cmd: Command): Operation {
    if cmd.CreateCommand? then AUTHORIZE else CAPTURE
  }

  // ----- acquiring -----

  /** `decideFromExisting`, up to its conditional write. */
  function Decide(c: Caller, r: Record, appNow: Time): Phase {
    if r.requestHash != RequestOf(c.cmd) then Done(Err(KeyReusedWithDifferentRequest))
    else match r.status
      case Completed =>
        if r.response.Some? then Done(Ok(r.response.value)) else Done(Err(DatabaseError))
      case Unsuccessful => Reactivating
      case Processing =>
        if r.processingExpiresAt <= appNow then TakingOver else Done(Err(RequestInProgress))
  }

  function DoLookup(s: State, id: nat, appNow: Time): State
    requires id in s.callers
  {
    var c := s.callers[id];
    var k := KeyOf(c.cmd);
    if k in s.records then Put(s, id, c.(phase := Decide(c, s.records[k], appNow)))
    else if c.phase == SecondLookup then Finish(s, id, StateNotFound)
    else Put(s, id, c.(phase := Inserting))
  }

  /** `buildStartedDecision`: the call now owns the row under the token just written. */
  function Started(c: Caller, r: Record): Caller {
    c.(phase := if c.cmd.CreateCommand? then ReadyToAuthorize else ReadyToCapture,
       token := Some(r.processingToken),
       resourceId := r.resourceId)
  }

  /** The end of an acquiring write: started, refused, or executed with its answer lost. */
  function Acquired(s: State, id: nat, written: (Records, Option<Record>), refused: Phase, lost: bool): State
    requires id in s.callers
  {
    var c := s.callers[id];
    s.(records := written.0,
       nextId := s.nextId + 2,
       callers := s.callers[id :=
         if lost then c.(phase := Done(Err(DatabaseError)))
         else if written.1.Some? then Started(c, written.1.value)
         else c.(phase := refused)])
  }

  /** A create reserves a new payment id (the second fresh identifier); a capture names its payment. */
  function ReservedId(s: State, cmd: Command): Id {
    match cmd
    case CreateCommand(_, _, _, _, _) => s.nextId + 1
    case CaptureCommand(_, _, paymentId) => paymentId
  }

  function DoTryInsert(s: State, id: nat, expiresAt: Time, lost: bool): State
    requires id in s.callers
  {
    var cmd := s.callers[id].cmd;
    Acquired(s, id, TryInsertProcessing(s.records, KeyOf(cmd), RequestOf(cmd), ReservedId(s, cmd), expiresAt, s.nextId),
             SecondLookup, lost)
  }

  function DoReactivate(s: State, id: nat, expiresAt: Time, lost: bool): State
    requires id in s.callers
  {
    var cmd := s.callers[id].cmd;
    Acquired(s, id, ReactivateFailed(s.records, KeyOf(cmd), RequestOf(cmd), expiresAt, s.nextId),
             Done(Err(RequestInProgress)), lost)
  }

  function DoTakeover(s: State, id: nat, expiresAt: Time, statementNow: Time, lost: bool): State
    requires id in s.callers
  {
    var cmd := s.callers[id].cmd;
    Acquired(s, id,
             TakeoverExpiredProcessing(s.records, KeyOf(cmd), RequestOf(cmd), statementNow, expiresAt, s.nextId),
             Done(Err(RequestInProgress)), lost)
  }

  // ----- working as owner -----

  function DoCallAuthorize(s: State, id: nat): State
    requires id in s.callers && s.callers[id].cmd.CreateCommand?
  {
    var c := s.callers[id];
    Put(s, id, c.(phase := InAuthorize)).(log := s.log +
      [AuthorizeCall(id, KeyOf(c.cmd), c.resourceId, c.cmd.merchantId, c.cmd.amountMinor, c.cmd.currency)])
  }

  function DoAuthorizeReturns(s: State, id: nat, result: AuthorizeResult, at: Time): State
    requires id in s.callers
  {
    var status := if result.AuthorizeSuccess? then Payments.Authorized else Payments.Failed;
    if CanTransition(Created, status) then Put(s, id, s.callers[id].(phase := Answered(result, at)))
    else Throw(s, id, InvalidTransition)
  }

  function DoBegin(s: State, id: nat): State
    requires id in s.callers
  {
    var c := s.callers[id];
    Put(s, id, c.(txn := Open,
                  phase := if c.phase.Answered? then InsertingPayment(c.phase.result, c.phase.at) else LockingPayment))
  }

  function DoInsertPayment(s: State, id: nat, createdAt: Time): State
    requires id in s.callers && s.callers[id].phase.InsertingPayment? && s.callers[id].cmd.CreateCommand?
  {
    var c := s.callers[id];
    var row := AuthorizationRow(c.resourceId, c.cmd.merchantId, c.cmd.amountMinor, c.cmd.currency,
                                c.phase.result, c.phase.at, createdAt);
    if InsertRow(s.payments, row).1.None? then Throw(s, id, UniqueViolation)
    else Put(s, id, c.(phase := RecordingEvent, paymentLock := true, row := Some(row)))
  }

  function DoLockPayment(s: State, id: nat): State
    requires id in s.callers
  {
    var c := s.callers[id];
    if c.resourceId !in s.payments then Throw(s, id, PaymentNotFound)
    else Put(s, id, c.(phase := Checking, paymentLock := true, row := Some(s.payments[c.resourceId])))
  }

  /** The checks between the locking read and the provider call run without an await. */
  function DoCallCapture(s: State, id: nat, configured: bool): State
    requires id in s.callers && s.callers[id].row.Some?
  {
    var c := s.callers[id];
    var row := c.row.value;
    if row.status != Payments.Authorized then Throw(s, id, PaymentNotCapturable)
    else if !configured then Throw(s, id, ProviderNotConfigured)
    else if !NonEmpty(row.providerPaymentId) then Throw(s, id, ProviderReferenceMissing)
    else
      Put(s, id, c.(phase := InCapture)).(log := s.log +
        [CaptureCall(id, row.id, row.providerPaymentId.value, row.amountMinor, row.currency, c.txn == Open)])
  }

  function DoCaptureReturns(s: State, id: nat, result: CaptureResult, at: Time): State
    requires id in s.callers
  {
    if CanTransition(Payments.Authorized, CaptureStatus(result))
    then Put(s, id, s.callers[id].(phase := UpdatingPayment(result, at)))
    else Throw(s, id, InvalidTransition)
  }

  function DoUpdatePayment(s: State, id: nat): State
    requires id in s.callers && s.callers[id].phase.UpdatingPayment?
  {
    var c := s.callers[id];
    var updated := UpdateIfAuthorized(s.payments, c.resourceId, c.phase.captureResult, c.phase.at).1;
    if updated.None? then Throw(s, id, ConditionalUpdateMissed)
    else Put(s, id, c.(phase := RecordingEvent, row := updated))
  }

  function DoRecordOutbox(s: State, id: nat, at: Time): State
    requires id in s.callers && s.callers[id].row.Some?
  {
    var c := s.callers[id];
    match RecordEvent(OperationOf(c.cmd), s.nextId, c.cmd.correlationId, c.row.value, at)
    case Failure(reason) => Throw(s, id, EventRejected(reason))
    case Success(event) =>
      Put(s, id, c.(phase := Completing, event := Some(event))).(nextId := s.nextId + 1)
  }

  function DoComplete(s: State, id: nat): State
    requires id in s.callers && s.callers[id].row.Some? && s.callers[id].token.Some?
  {
    var c := s.callers[id];
    var written := MarkCompleted(s.records, KeyOf(c.cmd), c.token.value, c.row.value.id, ReplyOf(c));
    if written.1.None? then Throw(s, id, OwnershipLost)
    else Put(s, id, c.(phase := ReadyToCommit, recordLock := true, record := written.1))
  }

  /** Every buffered write becomes durable at once and every lock is released. */
  function DoDbCommit(s: State, id: nat): State
    requires id in s.callers
    requires s.callers[id].row.Some? && s.callers[id].event.Some? && s.callers[id].record.Some?
  {
    var c := s.callers[id];
    var k := KeyOf(c.cmd);
    var h := s.history;
    s.(payments := s.payments[c.row.value.id := c.row.value],
       events := s.events[c.event.value.eventId := c.event.value],
       records := s.records[k := c.record.value],
       callers := s.callers[id := c.(txn := Committed, paymentLock := false, recordLock := false)],
       history := History(
         if c.cmd.CreateCommand? then h.authorizedBy[c.row.value.id := id] else h.authorizedBy,
         if c.cmd.CaptureCommand? then h.capturedBy[c.row.value.id := id] else h.capturedBy,
         h.completedBy[k := id],
         h.recordedBy[c.event.value.eventId := id]))
  }

  function DoDbAbort(s: State, id: nat): State
    requires id in s.callers
  {
    Put(s, id, s.callers[id].(txn := Aborted, paymentLock := false, recordLock := false))
  }

  /** `markFailed` in the catch block, then the error it rethrows. */
  function DoCloseFailed(s: State, id: nat, lost: bool): State
    requires id in s.callers && s.callers[id].phase.Closing? && s.callers[id].token.Some?
  {
    var c := s.callers[id];
    var written := MarkFailed(s.records, KeyOf(c.cmd), c.token.value);
    var error := if lost || written.1.Some? then c.phase.cause else OwnershipLost;
    s.(records := written.0, callers := s.callers[id := c.(phase := Done(Err(error)))])
  }

  // ----- the step relation -----

  ghost predicate Enabled(s: State, step: Step) {
    match step
    case Tick(now) => s.now <= now
    case Arrive(id, cmd) => id !in s.callers && ValidCommand(cmd)
    case Lookup(id, _) => In(s, id, FirstLookup) || In(s, id, SecondLookup)
    case TryInsert(id, _, _) => In(s, id, Inserting)
    case Reactivate(id, _, _) => In(s, id, Reactivating) && RecordFree(s, KeyOf(s.callers[id].cmd))
    case Takeover(id, _, statementNow, _) =>
      In(s, id, TakingOver) && RecordFree(s, KeyOf(s.callers[id].cmd)) && statementNow <= s.now
    case AcquireFails(id) => id in s.callers && Acquiring(s.callers[id].phase)
    case CallAuthorize(id) => In(s, id, ReadyToAuthorize) && s.callers[id].cmd.CreateCommand?
    case AuthorizeReturns(id, _, _) => In(s, id, InAuthorize)
    case AuthorizeThrows(id) => In(s, id, InAuthorize)
    case Begin(id) => id in s.callers && (s.callers[id].phase.Answered? || s.callers[id].phase.ReadyToCapture?)
    case BeginFails(id) => id in s.callers && (s.callers[id].phase.Answered? || s.callers[id].phase.ReadyToCapture?)
    case InsertPayment(id, _) =>
      && id in s.callers && s.callers[id].phase.InsertingPayment? && s.callers[id].txn == Open
      && s.callers[id].cmd.CreateCommand? && PaymentFree(s, id, s.callers[id].resourceId)
    case LockPayment(id) =>
      && In(s, id, LockingPayment) && s.callers[id].txn == Open
      && (s.callers[id].resourceId in s.payments ==> PaymentFree(s, id, s.callers[id].resourceId))
    case CallCapture(id, _) => In(s, id, Checking) && s.callers[id].row.Some?
    case CaptureReturns(id, _, _) => In(s, id, InCapture)
    case CaptureThrows(id) => In(s, id, InCapture)
    case UpdatePayment(id) => id in s.callers && s.callers[id].phase.UpdatingPayment? && s.callers[id].txn == Open
    case RecordOutbox(id, _) => In(s, id, RecordingEvent) && s.callers[id].txn == Open && s.callers[id].row.Some?
    case Complete(id) =>
      && In(s, id, Completing) && s.callers[id].txn == Open && s.callers[id].row.Some? && s.callers[id].token.Some?
      && RecordFree(s, KeyOf(s.callers[id].cmd))
    case SendCommit(id) => In(s, id, ReadyToCommit) && s.callers[id].txn == Open
    case StatementFails(id) => id in s.callers && AtStatement(s.callers[id].phase)
    case DbCommit(id) =>
      && id in s.callers && s.callers[id].txn == Committing
      && s.callers[id].row.Some? && s.callers[id].event.Some? && s.callers[id].record.Some?
    case DbAbort(id) => id in s.callers && (s.callers[id].txn == Open || s.callers[id].txn == Committing)
    case CommitAcknowledged(id) => In(s, id, AwaitingCommit) && s.callers[id].txn == Committed && s.callers[id].row.Some?
    case CommitFails(id) => In(s, id, AwaitingCommit)
    case CloseFailed(id, _) =>
      && id in s.callers && s.callers[id].phase.Closing? && s.callers[id].token.Some?
      && RecordFree(s, KeyOf(s.callers[id].cmd))
    case Crash(id) => id in s.callers && !s.callers[id].phase.Done?
  }

  ghost function Apply(s: State, step: Step): State
    requires Enabled(s, step)
  {
    match step
    case Tick(now) => s.(now := now)
    case Arrive(id, cmd) =>
      Put(s, id, Caller(cmd, FirstLookup, None, 0, NotStarted, false, false, None, None, None))
    case Lookup(id, appNow) => DoLookup(s, id, appNow)
    case TryInsert(id, expiresAt, lost) => DoTryInsert(s, id, expiresAt, lost)
    case Reactivate(id, expiresAt, lost) => DoReactivate(s, id, expiresAt, lost)
    case Takeover(id, expiresAt, statementNow, lost) => DoTakeover(s, id, expiresAt, statementNow, lost)
    case AcquireFails(id) => Finish(s, id, DatabaseError)
    case CallAuthorize(id) => DoCallAuthorize(s, id)
    case AuthorizeReturns(id, result, at) => DoAuthorizeReturns(s, id, result, at)
    case AuthorizeThrows(id) => Throw(s, id, ProviderThrew)
    case Begin(id) => DoBegin(s, id)
    case BeginFails(id) => Throw(s, id, DatabaseError)
    case InsertPayment(id, createdAt) => DoInsertPayment(s, id, createdAt)
    case LockPayment(id) => DoLockPayment(s, id)
    case CallCapture(id, configured) => DoCallCapture(s, id, configured)
    case CaptureReturns(id, result, at) => DoCaptureReturns(s, id, result, at)
    case CaptureThrows(id) => Throw(s, id, ProviderThrew)
    case UpdatePayment(id) => DoUpdatePayment(s, id)
    case RecordOutbox(id, at) => DoRecordOutbox(s, id, at)
    case Complete(id) => DoComplete(s, id)
    case SendCommit(id) => Put(s, id, s.callers[id].(phase := AwaitingCommit, txn := Committing))
    case StatementFails(id) => Throw(s, id, DatabaseError)
    case DbCommit(id) => DoDbCommit(s, id)
    case DbAbort(id) => DoDbAbort(s, id)
    case CommitAcknowledged(id) => Put(s, id, s.callers[id].(phase := Done(Ok(ReplyOf(s.callers[id])))))
    case CommitFails(id) => Put(s, id, s.callers[id].(phase := Closing(DatabaseError)))
    case CloseFailed(id, lost) => DoCloseFailed(s, id, lost)
    case Crash(id) => Put(s, id, s.callers[id].(phase := Crashed))
  }

  ghost predicate Next(s: State, s': State) {
    exists step :: Enabled(s, step) && s' == Apply(s, step)
  }

  ghost predicate Linked(run: seq<State>, i: int)
    requires 0 <= i < |run| - 1
  {
    Next(run[i], run[i + 1])
  }

  /** A run: any finite interleaving from the empty database. */
  ghost predicate IsRun(run: seq<State>) {
    && |run| > 0 && run[0] == INIT
    && forall i :: 0 <= i < |run| - 1 ==> Linked(run, i)
  }

  ghost predicate Reachable(s: State) {
    exists run :: IsRun(run) && run[|run| - 1] == s
  }
}
