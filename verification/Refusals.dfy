/**
 Why a call was refused. Each error a call answers is traced to the one step that raised it, and each step raises its
 error exactly under its condition, whatever has interleaved.
 */
module Refusals {
  import opened Options
  import opened Payments
  import opened IdempotencyRecords
  import opened Protocol
  import opened ProtocolInvariant
  import opened ProtocolRuns
  import opened ProtocolFlow
  import CrossTable

  // ----- into the catch block -----

  /** When a step of the owner's work throws `e`. */
  ghost predicate Throws(s: State, step: Step, e: Error)
    requires !step.Tick? && !step.Arrive? && Enabled(s, step)
  {
    var c := s.callers[step.id];
    match step
    case LockPayment(_) => e == PaymentNotFound && c.resourceId !in s.payments
    case CallCapture(_, configured) =>
      if c.row.value.status != Payments.Authorized then e == PaymentNotCapturable
      else if !configured then e == ProviderNotConfigured
      else e == ProviderReferenceMissing && !NonEmpty(c.row.value.providerPaymentId)
    case UpdatePayment(_) =>
      && e == ConditionalUpdateMissed
      && (c.resourceId !in s.payments || s.payments[c.resourceId].status != Payments.Authorized)
    case InsertPayment(_, _) => e == UniqueViolation && c.resourceId in s.payments
    case RecordOutbox(_, _) => e.EventRejected? && Lacks(c.row.value, e.reason)
    case Complete(_) => e == OwnershipLost && !OwnedBy(s.records, KeyOf(c.cmd), c.token.value)
    case AuthorizeThrows(_) => e == ProviderThrew
    case CaptureThrows(_) => e == ProviderThrew
    case BeginFails(_) => e == DatabaseError
    case StatementFails(_) => e == DatabaseError
    case CommitFails(_) => e == DatabaseError
    case _ => false
  }

  ghost predicate Threw(s: State, s': State, step: Step, e: Error)
    requires !step.Tick? && !step.Arrive? && Enabled(s, step)
  {
    step.id in s'.callers && (s'.callers[step.id].phase == Closing(e) <==> Throws(s, step, e))
  }

  lemma LockThrows(s: State, s': State, id: nat, e: Error)
    requires Enabled(s, LockPayment(id)) && s' == DoLockPayment(s, id)
    ensures Threw(s, s', LockPayment(id), e)
  {
  }

  lemma CallCaptureThrows(s: State, s': State, id: nat, configured: bool, e: Error)
    requires Enabled(s, CallCapture(id, configured)) && s' == DoCallCapture(s, id, configured)
    ensures Threw(s, s', CallCapture(id, configured), e)
  {
  }

  lemma UpdateThrows(s: State, s': State, id: nat, e: Error)
    requires Enabled(s, UpdatePayment(id)) && s' == DoUpdatePayment(s, id)
    ensures Threw(s, s', UpdatePayment(id), e)
  {
  }

  lemma InsertThrows(s: State, s': State, id: nat, createdAt: Time, e: Error)
    requires Enabled(s, InsertPayment(id, createdAt)) && s' == DoInsertPayment(s, id, createdAt)
    ensures Threw(s, s', InsertPayment(id, createdAt), e)
  {
  }

  lemma RecordThrows(s: State, s': State, id: nat, at: Time, e: Error)
    requires Enabled(s, RecordOutbox(id, at)) && s' == DoRecordOutbox(s, id, at) && RowWritten(s.callers[id])
    ensures Threw(s, s', RecordOutbox(id, at), e)
  {
    var c := s.callers[id];
    if e.EventRejected? {
      RejectedIff(OperationOf(c.cmd), s.nextId, c.cmd.correlationId, c.row.value, at, e.reason);
    }
  }

  lemma CompleteThrows(s: State, s': State, id: nat, e: Error)
    requires Enabled(s, Complete(id)) && s' == DoComplete(s, id)
    ensures Threw(s, s', Complete(id), e)
  {
  }

  lemma CheckThrowsIff(s: State, s': State, step: Step, e: Error)
    requires step.LockPayment? || step.CallCapture? || step.UpdatePayment?
    requires Enabled(s, step) && s' == Apply(s, step)
    ensures Threw(s, s', step, e)
  {
    match step
    case LockPayment(id) => LockThrows(s, s', id, e);
    case CallCapture(id, configured) => CallCaptureThrows(s, s', id, configured, e);
    case UpdatePayment(id) => UpdateThrows(s, s', id, e);
  }

  lemma WriteThrowsIff(s: State, s': State, step: Step, e: Error)
    requires step.InsertPayment? || step.RecordOutbox? || step.Complete?
    requires Enabled(s, step) && s' == Apply(s, step) && WritesOk(s.callers[step.id])
    ensures Threw(s, s', step, e)
  {
    match step
    case InsertPayment(id, createdAt) => InsertThrows(s, s', id, createdAt, e);
    case RecordOutbox(id, at) => RecordThrows(s, s', id, at, e);
    case Complete(id) => CompleteThrows(s, s', id, e);
  }

  lemma FailThrowsIff(s: State, s': State, step: Step, e: Error)
    requires step.AuthorizeThrows? || step.CaptureThrows? || step.BeginFails? || step.StatementFails? || step.CommitFails?
    requires Enabled(s, step) && s' == Apply(s, step)
    ensures Threw(s, s', step, e)
  {
    match step
    case AuthorizeThrows(id) =>
    case CaptureThrows(id) =>
    case BeginFails(id) =>
    case StatementFails(id) =>
    case CommitFails(id) =>
  }

  predicate Throwing(step: Step) {
    || step.LockPayment? || step.CallCapture? || step.UpdatePayment? || step.InsertPayment? || step.RecordOutbox?
    || step.Complete? || step.AuthorizeThrows? || step.CaptureThrows? || step.BeginFails? || step.StatementFails?
    || step.CommitFails?
  }

  /** Each step throws an error exactly under its condition. */
  lemma ThrowsIff(s: State, s': State, step: Step, e: Error)
    requires Throwing(step) && Enabled(s, step) && s' == Apply(s, step) && WritesOk(s.callers[step.id])
    ensures Threw(s, s', step, e)
  {
    if step.LockPayment? || step.CallCapture? || step.UpdatePayment? {
      CheckThrowsIff(s, s', step, e);
    } else if step.InsertPayment? || step.RecordOutbox? || step.Complete? {
      WriteThrowsIff(s, s', step, e);
    } else {
      FailThrowsIff(s, s', step, e);
    }
  }

  lemma FlowsWithoutThrow(step: Step, c: Caller, c': Caller, e: Error)
    requires Flows(step, c, c') && !Throwing(step)
    ensures c'.phase == Closing(e) ==> c.phase == Closing(e)
  {
  }

  lemma QuietStaysOut(s: State, s': State, step: Step, e: Error)
    requires !step.Tick? && !step.Arrive? && !Throwing(step) && Enabled(s, step) && s' == Apply(s, step)
    ensures step.id in s.callers && step.id in s'.callers
    ensures s'.callers[step.id].phase == Closing(e) ==> s.callers[step.id].phase == Closing(e)
  {
    StepFlows(s, s', step);
    FlowsWithoutThrow(step, s.callers[step.id], s'.callers[step.id], e);
  }

  lemma ThrownInto(s: State, s': State, step: Step, e: Error)
    requires Throwing(step) && Enabled(s, step) && s' == Apply(s, step) && WritesOk(s.callers[step.id])
    requires step.id in s'.callers && s'.callers[step.id].phase == Closing(e)
    ensures Throws(s, step, e)
  {
    ThrowsIff(s, s', step, e);
  }

  lemma ClosingFrom(s: State, s': State, step: Step, e: Error)
    requires CallersOk(s) && Enabled(s, step) && s' == Apply(s, step) && !step.Tick? && step.id in s'.callers
    requires s'.callers[step.id].phase == Closing(e) && (step.id in s.callers ==> s.callers[step.id].phase != Closing(e))
    ensures !step.Arrive? && Throws(s, step, e)
  {
    if Throwing(step) {
      assert CallerOk(s, s.callers[step.id]);
      ThrownInto(s, s', step, e);
    } else if !step.Arrive? {
      QuietStaysOut(s, s', step, e);
    }
  }

  /** The step of a run that brought a call to its catch block, and the condition under which it did. */
  lemma WhyClosing(run: seq<State>, j: nat, id: nat, e: Error) returns (i: nat, step: Step)
    requires IsRun(run) && j < |run| && id in run[j].callers && run[j].callers[id].phase == Closing(e)
    ensures i < j && TakenAt(run, i, step) && !step.Tick? && !step.Arrive? && step.id == id && Throws(run[i], step, e)
  {
    i, step := Became(run, j, id, (c: Caller) => c.phase == Closing(e));
    RunInv(run, i);
    ClosingFrom(run[i], run[i + 1], step, e);
  }

  // ----- to the client -----

  /** When a step ends the call with error `e`: in `getExistingOrStart`, or in the catch block. */
  ghost predicate Refuses(s: State, step: Step, e: Error)
    requires !step.Tick? && !step.Arrive? && Enabled(s, step)
  {
    var c := s.callers[step.id];
    var k := KeyOf(c.cmd);
    match step
    case Lookup(_, appNow) =>
      && k in s.records
      && (if s.records[k].requestHash != RequestOf(c.cmd) then e == KeyReusedWithDifferentRequest
          else
            && e == RequestInProgress && s.records[k].status == Processing
            && appNow < s.records[k].processingExpiresAt)
    case TryInsert(_, _, lost) => lost && e == DatabaseError
    case Reactivate(_, _, lost) =>
      if lost then e == DatabaseError
      else e == RequestInProgress && k in s.records && s.records[k].status != Unsuccessful
    case Takeover(_, _, statementNow, lost) =>
      if lost then e == DatabaseError
      else
        && e == RequestInProgress && k in s.records
        && (s.records[k].status != Processing || statementNow <= s.records[k].processingExpiresAt)
    case AcquireFails(_) => e == DatabaseError
    case CloseFailed(_, lost) =>
      if !lost && !OwnedBy(s.records, k, c.token.value) then e == OwnershipLost else c.phase == Closing(e)
    case _ => false
  }

  ghost predicate Refused(s: State, s': State, step: Step, e: Error)
    requires !step.Tick? && !step.Arrive? && Enabled(s, step)
  {
    step.id in s'.callers && (s'.callers[step.id].phase == Done(Err(e)) <==> Refuses(s, step, e))
  }

  predicate Ending(step: Step) {
    step.Lookup? || step.TryInsert? || step.Reactivate? || step.Takeover? || step.AcquireFails? || step.CloseFailed?
  }

  lemma LookupRefuses(s: State, s': State, id: nat, appNow: Time, e: Error)
    requires Enabled(s, Lookup(id, appNow)) && s' == DoLookup(s, id, appNow) && AnswersOk(s, s.callers[id])
    requires var k := KeyOf(s.callers[id].cmd); k in s.records ==> RecordOk(s, k, s.records[k])
    ensures Refused(s, s', Lookup(id, appNow), e)
  {
  }

  lemma WriteRefuses(s: State, s': State, step: Step, e: Error)
    requires step.TryInsert? || step.Reactivate? || step.Takeover?
    requires Enabled(s, step) && s' == Apply(s, step) && AnswersOk(s, s.callers[step.id])
    ensures Refused(s, s', step, e)
  {
    match step
    case TryInsert(id, expiresAt, lost) => InsertRefuses(s, s', id, expiresAt, lost, e);
    case Reactivate(id, expiresAt, lost) => ReactivateRefuses(s, s', id, expiresAt, lost, e);
    case Takeover(id, expiresAt, statementNow, lost) => TakeoverRefuses(s, s', id, expiresAt, statementNow, lost, e);
  }

  lemma InsertRefuses(s: State, s': State, id: nat, expiresAt: Time, lost: bool, e: Error)
    requires Enabled(s, TryInsert(id, expiresAt, lost)) && s' == DoTryInsert(s, id, expiresAt, lost)
    ensures Refused(s, s', TryInsert(id, expiresAt, lost), e)
  {
  }

  lemma ReactivateRefuses(s: State, s': State, id: nat, expiresAt: Time, lost: bool, e: Error)
    requires Enabled(s, Reactivate(id, expiresAt, lost)) && s' == DoReactivate(s, id, expiresAt, lost)
    requires AnswersOk(s, s.callers[id])
    ensures Refused(s, s', Reactivate(id, expiresAt, lost), e)
  {
  }

  lemma TakeoverRefuses(s: State, s': State, id: nat, expiresAt: Time, statementNow: Time, lost: bool, e: Error)
    requires Enabled(s, Takeover(id, expiresAt, statementNow, lost))
    requires s' == DoTakeover(s, id, expiresAt, statementNow, lost) && AnswersOk(s, s.callers[id])
    ensures Refused(s, s', Takeover(id, expiresAt, statementNow, lost), e)
  {
  }

  lemma CloseRefuses(s: State, s': State, step: Step, e: Error)
    requires step.AcquireFails? || step.CloseFailed?
    requires Enabled(s, step) && s' == Apply(s, step)
    ensures Refused(s, s', step, e)
  {
    match step
    case AcquireFails(id) =>
    case CloseFailed(id, lost) =>
  }

  /** Each of those steps ends the call with an error exactly under its condition. */
  lemma RefusesIff(s: State, s': State, step: Step, e: Error)
    requires Inv(s) && Ending(step) && Enabled(s, step) && s' == Apply(s, step)
    ensures Refused(s, s', step, e)
  {
    var c := s.callers[step.id];
    assert CallerOk(s, c);
    assert KeyOf(c.cmd) in s.records ==> RecordOk(s, KeyOf(c.cmd), s.records[KeyOf(c.cmd)]);
    if step.Lookup? {
      LookupRefuses(s, s', step.id, step.appNow, e);
    } else if step.AcquireFails? || step.CloseFailed? {
      CloseRefuses(s, s', step, e);
    } else {
      WriteRefuses(s, s', step, e);
    }
  }

  lemma EndFrom(s: State, s': State, step: Step, e: Error)
    requires Inv(s) && Enabled(s, step) && s' == Apply(s, step) && !step.Tick? && step.id in s'.callers
    requires s'.callers[step.id].phase == Done(Err(e))
    requires step.id in s.callers ==> s.callers[step.id].phase != Done(Err(e))
    ensures !step.Arrive? && Refuses(s, step, e)
  {
    if !step.Arrive? {
      if Ending(step) { RefusesIff(s, s', step, e); } else { StepFlows(s, s', step); }
    }
  }

  /** The step that ended a call with an error, and the condition under which it did. */
  lemma WhyRefused(run: seq<State>, j: nat, id: nat, e: Error) returns (i: nat, step: Step)
    requires IsRun(run) && j < |run| && id in run[j].callers && run[j].callers[id].phase == Done(Err(e))
    ensures i < j && TakenAt(run, i, step) && !step.Tick? && !step.Arrive? && step.id == id && Refuses(run[i], step, e)
  {
    i, step := Became(run, j, id, (c: Caller) => c.phase == Done(Err(e)));
    RunInv(run, i);
    EndFrom(run[i], run[i + 1], step, e);
  }

  /** An error only the owner's work raises was raised by one step of it. */
  lemma WhyFailed(run: seq<State>, j: nat, id: nat, e: Error) returns (i: nat, step: Step)
    requires IsRun(run) && j < |run| && id in run[j].callers && run[j].callers[id].phase == Done(Err(e))
    requires e != KeyReusedWithDifferentRequest && e != RequestInProgress && e != OwnershipLost && e != DatabaseError
    ensures i < j && TakenAt(run, i, step) && !step.Tick? && !step.Arrive? && step.id == id && Throws(run[i], step, e)
  {
    var m, last := WhyRefused(run, j, id, e);
    i, step := WhyClosing(run, m, id, e);
  }

  // ----- what that says of the tables -----

  /** PAYMENT_NOT_FOUND: at an instant of the call there was no such payment. */
  lemma NotFoundMeans(run: seq<State>, j: nat, id: nat) returns (i: nat)
    requires IsRun(run) && j < |run| && id in run[j].callers && run[j].callers[id].phase == Done(Err(PaymentNotFound))
    ensures i < j && id in run[i].callers && run[j].callers[id].cmd.CaptureCommand?
    ensures run[j].callers[id].cmd.paymentId !in run[i].payments
  {
    var step;
    i, step := WhyFailed(run, j, id, PaymentNotFound);
    RunInv(run, i);
    assert CallerOk(run[i], run[i].callers[id]);
    RunGrows(run, i, j);
  }

  /** A row a call is checking is the payment as it was at the instant of the locking read. */
  lemma ReadAt(run: seq<State>, j: nat, id: nat, row: Payment) returns (i: nat)
    requires IsRun(run) && j < |run| && id in run[j].callers
    requires run[j].callers[id].phase.Checking? && run[j].callers[id].row == Some(row)
    ensures i < j && id in run[i].callers && run[i].callers[id].resourceId in run[i].payments
    ensures run[i].payments[run[i].callers[id].resourceId] == row
    ensures run[j].callers[id].resourceId == run[i].callers[id].resourceId
  {
    var step;
    i, step := Became(run, j, id, (c: Caller) => c.phase.Checking? && c.row == Some(row));
    RunInv(run, i);
    ReadFrom(run[i], run[i + 1], step, row);
    RunGrows(run, i, j);
  }

  lemma FlowsIntoChecking(step: Step, c: Caller, c': Caller)
    requires Flows(step, c, c') && c'.phase.Checking?
    ensures step.LockPayment? || (c.phase.Checking? && c'.row == c.row)
  {
  }

  lemma LockReads(s: State, s': State, id: nat)
    requires CallersOk(s) && Enabled(s, LockPayment(id)) && s' == DoLockPayment(s, id)
    requires s'.callers[id].phase.Checking?
    ensures s.callers[id].token.Some? && s.callers[id].resourceId in s.payments
    ensures s'.callers[id].row == Some(s.payments[s.callers[id].resourceId])
  {
    assert CallerOk(s, s.callers[id]);
  }

  lemma ReadFrom(s: State, s': State, step: Step, row: Payment)
    requires CallersOk(s) && Enabled(s, step) && s' == Apply(s, step) && !step.Tick? && step.id in s'.callers
    requires s'.callers[step.id].phase.Checking? && s'.callers[step.id].row == Some(row)
    requires step.id in s.callers ==> !s.callers[step.id].phase.Checking? || s.callers[step.id].row != Some(row)
    ensures step.LockPayment? && step.id in s.callers && s.callers[step.id].token.Some?
    ensures s.callers[step.id].resourceId in s.payments && s.payments[s.callers[step.id].resourceId] == row
  {
    if !step.Arrive? {
      StepFlows(s, s', step);
      FlowsIntoChecking(step, s.callers[step.id], s'.callers[step.id]);
      LockReads(s, s', step.id);
    }
  }

  lemma NotCapturableAt(s: State, step: Step)
    requires CallersOk(s) && !step.Tick? && !step.Arrive? && Enabled(s, step) && Throws(s, step, PaymentNotCapturable)
    ensures s.callers[step.id].phase.Checking? && s.callers[step.id].row.Some?
    ensures s.callers[step.id].row.value.status != Payments.Authorized
    ensures s.callers[step.id].cmd.CaptureCommand? && s.callers[step.id].cmd.paymentId == s.callers[step.id].resourceId
  {
    assert CallerOk(s, s.callers[step.id]);
  }

  /** PAYMENT_NOT_CAPTURABLE: the payment exists and is not AUTHORIZED, and never will be again. */
  lemma NotCapturableMeans(run: seq<State>, j: nat, id: nat)
    requires IsRun(run) && j < |run| && id in run[j].callers
    requires run[j].callers[id].phase == Done(Err(PaymentNotCapturable))
    ensures run[j].callers[id].cmd.CaptureCommand? && run[j].callers[id].cmd.paymentId in run[j].payments
    ensures run[j].payments[run[j].callers[id].cmd.paymentId].status != Payments.Authorized
  {
    var i, step := WhyFailed(run, j, id, PaymentNotCapturable);
    RunInv(run, i);
    NotCapturableAt(run[i], step);
    var m := ReadAt(run, i, id, run[i].callers[id].row.value);
    RunGrows(run, i, j);
    RunGrows(run, m, j);
  }

  lemma NoneThrowsKeyReused(s: State, step: Step)
    requires !step.Tick? && !step.Arrive? && Enabled(s, step)
    ensures !Throws(s, step, KeyReusedWithDifferentRequest)
  {
  }

  lemma KeyReusedAt(s: State, step: Step)
    requires !step.Tick? && !step.Arrive? && Enabled(s, step) && Refuses(s, step, KeyReusedWithDifferentRequest)
    ensures step.CloseFailed? ==> s.callers[step.id].phase == Closing(KeyReusedWithDifferentRequest)
    ensures !step.CloseFailed? ==>
      && KeyOf(s.callers[step.id].cmd) in s.records
      && s.records[KeyOf(s.callers[step.id].cmd)].requestHash != RequestOf(s.callers[step.id].cmd)
  {
  }

  /** A key refused as reused holds the record of another request, for ever. */
  lemma KeyReusedMeans(run: seq<State>, j: nat, id: nat)
    requires IsRun(run) && j < |run| && id in run[j].callers
    requires run[j].callers[id].phase == Done(Err(KeyReusedWithDifferentRequest))
    ensures var cmd := run[j].callers[id].cmd;
            KeyOf(cmd) in run[j].records && run[j].records[KeyOf(cmd)].requestHash != RequestOf(cmd)
  {
    var i, step := WhyRefused(run, j, id, KeyReusedWithDifferentRequest);
    KeyReusedAt(run[i], step);
    if step.CloseFailed? {
      var m, thrower := WhyClosing(run, i, id, KeyReusedWithDifferentRequest);
      NoneThrowsKeyReused(run[m], thrower);
    }
    RunGrows(run, i, j);
  }

  lemma TakenIdIsCompleted(s: State, id: nat)
    requires Reachable(s) && id in s.callers && s.callers[id].token.Some? && s.callers[id].cmd.CreateCommand?
    requires s.callers[id].resourceId in s.payments
    ensures CrossTable.CompletedCreate(s, s.callers[id].resourceId, KeyOf(s.callers[id].cmd))
  {
    ReachableInv(s);
    var c := s.callers[id];
    assert CallerOk(s, c);
    CrossTable.CreateAgreement(s, c.resourceId);
    var k :| CrossTable.CompletedCreate(s, c.resourceId, k);
    assert k == KeyOf(c.cmd);
  }

  /** A unique violation: another owner of the same key has created the payment, and its answer is stored. */
  lemma UniqueViolationMeans(run: seq<State>, j: nat, id: nat)
    requires IsRun(run) && j < |run| && id in run[j].callers && run[j].callers[id].phase == Done(Err(UniqueViolation))
    ensures run[j].callers[id].cmd.CreateCommand? && run[j].callers[id].resourceId in run[j].payments
    ensures CrossTable.CompletedCreate(run[j], run[j].callers[id].resourceId, KeyOf(run[j].callers[id].cmd))
  {
    var i, step := WhyFailed(run, j, id, UniqueViolation);
    RunInv(run, i);
    assert CallerOk(run[i], run[i].callers[id]);
    RunGrows(run, i, j);
    PrefixReachable(run, j);
    TakenIdIsCompleted(run[j], id);
  }

  /** The provider's answer was refused by the event's schema checks: the row built from it lacked a text. */
  lemma EventRejectedMeans(run: seq<State>, j: nat, id: nat, reason: RecordError) returns (i: nat)
    requires IsRun(run) && j < |run| && id in run[j].callers
    requires run[j].callers[id].phase == Done(Err(EventRejected(reason)))
    ensures i < j && id in run[i].callers && run[i].callers[id].row.Some? && Lacks(run[i].callers[id].row.value, reason)
  {
    var step;
    i, step := WhyFailed(run, j, id, EventRejected(reason));
  }

  /** The catch block releases the record exactly if the call still owns it, and changes nothing else. */
  lemma ClosingReleases(s: State, s': State, id: nat, lost: bool)
    requires Reachable(s) && Enabled(s, CloseFailed(id, lost)) && s' == Apply(s, CloseFailed(id, lost))
    ensures KeyOf(s.callers[id].cmd) in s.records && s'.payments == s.payments && s'.events == s.events
    ensures var k := KeyOf(s.callers[id].cmd);
            var r := s.records[k];
            s'.records == if r.status == Processing && s.callers[id].token == Some(r.processingToken)
                          then s.records[k := r.(status := Unsuccessful)] else s.records
  {
    ReachableInv(s);
    assert CallerOk(s, s.callers[id]);
  }
}
