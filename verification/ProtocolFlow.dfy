/** The flow of control: where each step takes its call, and what it does to the call's transaction, row and event. */
module ProtocolFlow {
  import opened Options
  import opened Payments
  import opened IdempotencyRecords
  import opened Protocol

  /** From where to where a step takes its call. */
  predicate Follows(step: Step, from: Phase, to: Phase) {
    match step
    case Tick(_) => false
    case Arrive(_, _) => false
    case Lookup(_, _) =>
      Acquiring(from) && (to.Inserting? || to.Reactivating? || to.TakingOver? || to.Done?)
    case TryInsert(_, _, _) => Acquiring(from) && AfterWrite(to)
    case Reactivate(_, _, _) => Acquiring(from) && AfterWrite(to)
    case Takeover(_, _, _, _) => Acquiring(from) && AfterWrite(to)
    case AcquireFails(_) => Acquiring(from) && to == Done(Err(DatabaseError))
    case CallAuthorize(_) => from.ReadyToAuthorize? && to.InAuthorize?
    case AuthorizeReturns(_, _, _) => from.InAuthorize? && to.Answered?
    case AuthorizeThrows(_) => from.InAuthorize? && to.Closing?
    case Begin(_) =>
      || (from.Answered? && to == InsertingPayment(from.result, from.at))
      || (from.ReadyToCapture? && to.LockingPayment?)
    case BeginFails(_) => (from.Answered? || from.ReadyToCapture?) && to.Closing?
    case InsertPayment(_, _) => from.InsertingPayment? && (to.RecordingEvent? || to.Closing?)
    case LockPayment(_) => from.LockingPayment? && (to.Checking? || to.Closing?)
    case CallCapture(_, _) => from.Checking? && (to.InCapture? || to.Closing?)
    case CaptureReturns(_, _, _) => from.InCapture? && to.UpdatingPayment?
    case CaptureThrows(_) => from.InCapture? && to.Closing?
    case UpdatePayment(_) => from.UpdatingPayment? && (to.RecordingEvent? || to.Closing?)
    case RecordOutbox(_, _) => from.RecordingEvent? && (to.Completing? || to.Closing?)
    case Complete(_) => from.Completing? && (to.ReadyToCommit? || to.Closing?)
    case SendCommit(_) => from.ReadyToCommit? && to.AwaitingCommit?
    case StatementFails(_) => AtStatement(from) && to.Closing?
    case DbCommit(_) => to == from
    case DbAbort(_) => to == from
    case CommitAcknowledged(_) => from.AwaitingCommit? && to.Done? && to.outcome.Ok?
    case CommitFails(_) => from.AwaitingCommit? && to.Closing?
    case CloseFailed(_, _) => from.Closing? && to.Done?
    case Crash(_) => !from.Done? && to.Crashed?
  }

  predicate AfterWrite(phase: Phase) {
    phase.SecondLookup? || phase.Done? || phase.ReadyToAuthorize? || phase.ReadyToCapture?
  }

  /** What becomes of its transaction: a throw out of the handler rolls an open one back. */
  function TransactionAfter(step: Step, c: Caller, to: Phase): Transaction {
    if step.Begin? then Open
    else if step.SendCommit? then Committing
    else if step.DbCommit? then Committed
    else if step.DbAbort? then Aborted
    else if to.Closing? && !step.CommitFails? && c.txn == Open then Aborted
    else c.txn
  }

  predicate Flows(step: Step, c: Caller, c': Caller) {
    && Follows(step, c.phase, c'.phase) && (step.DbCommit? ==> c.txn == Committing)
    && c'.cmd == c.cmd && c'.txn == TransactionAfter(step, c, c'.phase)
    && (step.LockPayment? || step.InsertPayment? || step.UpdatePayment? || c'.row == c.row)
    && (step.RecordOutbox? || c'.event == c.event)
  }

  ghost predicate FlowsTo(s: State, s': State, step: Step) {
    !step.Tick? && step.id in s.callers && step.id in s'.callers && Flows(step, s.callers[step.id], s'.callers[step.id])
  }

  lemma LookupFlows(s: State, s': State, id: nat, appNow: Time)
    requires Enabled(s, Lookup(id, appNow)) && s' == DoLookup(s, id, appNow)
    ensures FlowsTo(s, s', Lookup(id, appNow))
  {
  }

  lemma WriteFlows(s: State, s': State, step: Step, written: (Records, Option<Record>), refused: Phase)
    requires step.TryInsert? || step.Reactivate? || step.Takeover?
    requires step.id in s.callers && Acquiring(s.callers[step.id].phase) && (refused.SecondLookup? || refused.Done?)
    requires s' == Acquired(s, step.id, written, refused, step.lost)
    ensures FlowsTo(s, s', step)
  {
  }

  lemma AcquiringFlows(s: State, s': State, step: Step)
    requires step.Lookup? || step.TryInsert? || step.Reactivate? || step.Takeover? || step.AcquireFails?
    requires Enabled(s, step) && s' == Apply(s, step)
    ensures FlowsTo(s, s', step)
  {
    var cmd := s.callers[step.id].cmd;
    match step
    case Lookup(id, appNow) => LookupFlows(s, s', id, appNow);
    case TryInsert(id, expiresAt, lost) =>
      WriteFlows(s, s', step, TryInsertProcessing(s.records, KeyOf(cmd), RequestOf(cmd), ReservedId(s, cmd), expiresAt,
                                                  s.nextId), SecondLookup);
    case Reactivate(id, expiresAt, lost) =>
      WriteFlows(s, s', step, ReactivateFailed(s.records, KeyOf(cmd), RequestOf(cmd), expiresAt, s.nextId),
                 Done(Err(RequestInProgress)));
    case Takeover(id, expiresAt, statementNow, lost) =>
      WriteFlows(s, s', step, TakeoverExpiredProcessing(s.records, KeyOf(cmd), RequestOf(cmd), statementNow, expiresAt,
                                                        s.nextId), Done(Err(RequestInProgress)));
    case AcquireFails(id) => PutFlows(s, s', step, s.callers[id].(phase := Done(Err(DatabaseError))));
  }

  lemma ProviderFlows(s: State, s': State, step: Step)
    requires step.CallAuthorize? || step.AuthorizeReturns? || step.Begin? || step.CaptureReturns? || step.SendCommit?
    requires Enabled(s, step) && s' == Apply(s, step)
    ensures FlowsTo(s, s', step)
  {
    match step
    case CallAuthorize(id) =>
    case AuthorizeReturns(id, result, at) =>
    case Begin(id) =>
    case CaptureReturns(id, result, at) =>
    case SendCommit(id) =>
  }

  lemma ThrowFlows(s: State, s': State, step: Step, cause: Error)
    requires step.AuthorizeThrows? || step.CaptureThrows? || step.BeginFails? || step.StatementFails? || step.LockPayment?
          || step.CallCapture? || step.InsertPayment? || step.UpdatePayment? || step.RecordOutbox? || step.Complete?
    requires Enabled(s, step) && s' == Throw(s, step.id, cause)
    ensures FlowsTo(s, s', step)
  {
  }

  lemma FailingFlows(s: State, s': State, step: Step)
    requires step.AuthorizeThrows? || step.CaptureThrows? || step.BeginFails? || step.StatementFails?
    requires Enabled(s, step) && s' == Apply(s, step)
    ensures FlowsTo(s, s', step)
  {
    ThrowFlows(s, s', step, if step.AuthorizeThrows? || step.CaptureThrows? then ProviderThrew else DatabaseError);
  }

  lemma PutFlows(s: State, s': State, step: Step, c': Caller)
    requires !step.Tick? && step.id in s.callers && s'.callers == s.callers[step.id := c']
    requires Flows(step, s.callers[step.id], c')
    ensures FlowsTo(s, s', step)
  {
  }

  lemma CheckFlows(s: State, s': State, id: nat, configured: bool)
    requires Enabled(s, CallCapture(id, configured)) && s' == DoCallCapture(s, id, configured)
    ensures FlowsTo(s, s', CallCapture(id, configured))
  {
    var c := s.callers[id];
    if c.row.value.status != Payments.Authorized {
      ThrowFlows(s, s', CallCapture(id, configured), PaymentNotCapturable);
    } else if !configured {
      ThrowFlows(s, s', CallCapture(id, configured), ProviderNotConfigured);
    } else if !NonEmpty(c.row.value.providerPaymentId) {
      ThrowFlows(s, s', CallCapture(id, configured), ProviderReferenceMissing);
    } else {
      PutFlows(s, s', CallCapture(id, configured), c.(phase := InCapture));
    }
  }

  lemma LockFlows(s: State, s': State, id: nat)
    requires Enabled(s, LockPayment(id)) && s' == DoLockPayment(s, id)
    ensures FlowsTo(s, s', LockPayment(id))
  {
  }

  lemma InsertFlows(s: State, s': State, id: nat, createdAt: Time)
    requires Enabled(s, InsertPayment(id, createdAt)) && s' == DoInsertPayment(s, id, createdAt)
    ensures FlowsTo(s, s', InsertPayment(id, createdAt))
  {
  }

  lemma UpdateFlows(s: State, s': State, id: nat)
    requires Enabled(s, UpdatePayment(id)) && s' == DoUpdatePayment(s, id)
    ensures FlowsTo(s, s', UpdatePayment(id))
  {
  }

  lemma RecordFlows(s: State, s': State, id: nat, at: Time)
    requires Enabled(s, RecordOutbox(id, at)) && s' == DoRecordOutbox(s, id, at)
    ensures FlowsTo(s, s', RecordOutbox(id, at))
  {
  }

  lemma CompleteFlows(s: State, s': State, id: nat)
    requires Enabled(s, Complete(id)) && s' == DoComplete(s, id)
    ensures FlowsTo(s, s', Complete(id))
  {
  }

  lemma CloseFlows(s: State, s': State, id: nat, lost: bool)
    requires Enabled(s, CloseFailed(id, lost)) && s' == DoCloseFailed(s, id, lost)
    ensures FlowsTo(s, s', CloseFailed(id, lost))
  {
  }

  lemma DatabaseFlows(s: State, s': State, step: Step)
    requires step.DbCommit? || step.DbAbort?
    requires Enabled(s, step) && s' == Apply(s, step)
    ensures FlowsTo(s, s', step)
  {
    match step
    case DbCommit(id) =>
    case DbAbort(id) =>
  }

  lemma EndFlows(s: State, s': State, step: Step)
    requires step.CommitAcknowledged? || step.CommitFails? || step.CloseFailed? || step.Crash?
    requires Enabled(s, step) && s' == Apply(s, step)
    ensures FlowsTo(s, s', step)
  {
    match step
    case CommitAcknowledged(id) =>
    case CommitFails(id) =>
    case CloseFailed(id, lost) => CloseFlows(s, s', id, lost);
    case Crash(id) =>
  }

  lemma StepFlows(s: State, s': State, step: Step)
    requires !step.Tick? && !step.Arrive? && Enabled(s, step) && s' == Apply(s, step)
    ensures FlowsTo(s, s', step)
  {
    if step.Lookup? || step.TryInsert? || step.Reactivate? || step.Takeover? || step.AcquireFails? {
      AcquiringFlows(s, s', step);
    } else if step.CallAuthorize? || step.AuthorizeReturns? || step.Begin? || step.CaptureReturns? || step.SendCommit? {
      ProviderFlows(s, s', step);
    } else if step.AuthorizeThrows? || step.CaptureThrows? || step.BeginFails? || step.StatementFails? {
      FailingFlows(s, s', step);
    } else if step.LockPayment? {
      LockFlows(s, s', step.id);
    } else if step.InsertPayment? {
      InsertFlows(s, s', step.id, step.createdAt);
    } else if step.UpdatePayment? {
      UpdateFlows(s, s', step.id);
    } else if step.CallCapture? {
      CheckFlows(s, s', step.id, step.configured);
    } else if step.RecordOutbox? {
      RecordFlows(s, s', step.id, step.at);
    } else if step.Complete? {
      CompleteFlows(s, s', step.id);
    } else if step.DbCommit? || step.DbAbort? {
      DatabaseFlows(s, s', step);
    } else {
      EndFlows(s, s', step);
    }
  }
}
