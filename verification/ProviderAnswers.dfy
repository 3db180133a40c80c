/**
 What the provider answers is what is committed, recorded and told: the answer a call was given at one step of a run
 decides the payment's row, its event and the response, and without an answer nothing is committed.
 */
module ProviderAnswers {
  import opened Payments
  import opened Protocol
  import opened ProtocolInvariant
  import opened ProtocolRuns
  import opened ProtocolFlow
  import opened CrossTable

  // ----- from the answer on -----

  /** The call has failed or crashed without a commit under way. */
  predicate Doomed(c: Caller) {
    (c.phase.Closing? || c.phase.Done? || c.phase.Crashed?) && c.txn != Committing && c.txn != Committed
  }

  /** The row the call has written is final. */
  predicate RowFinal(c: Caller) {
    && c.row.Some?
    && (HoldsWrittenRow(c.phase) || c.phase.AwaitingCommit? || c.phase.Closing? || c.phase.Done? || c.phase.Crashed?)
  }

  predicate HasAuthorize(c: Caller, result: AuthorizeResult, at: Time) {
    && c.cmd.CreateCommand?
    && (|| Doomed(c) || c.phase == Answered(result, at) || c.phase == InsertingPayment(result, at)
        || (RowFinal(c) && AuthorizedAs(c.row.value, result, at)))
  }

  predicate HasCapture(c: Caller, result: CaptureResult, at: Time) {
    && c.cmd.CaptureCommand?
    && (|| Doomed(c) || c.phase == UpdatingPayment(result, at) || (RowFinal(c) && CapturedAs(c.row.value, result, at)))
  }

  /** The row is written with this instant as its creation time. */
  predicate HasCreationTime(c: Caller, createdAt: Time) {
    c.cmd.CreateCommand? && (Doomed(c) || (RowFinal(c) && c.row.value.createdAt == createdAt))
  }

  /** The event is written with this instant as its time. */
  predicate HasEventTime(c: Caller, at: Time) {
    || Doomed(c)
    || (RowFinal(c) && !c.phase.RecordingEvent? && c.event.Some? && c.event.value.occurredAt == at)
  }

  predicate PastCapture(c: Caller) {
    && c.cmd.CaptureCommand?
    && (c.phase.UpdatingPayment? || HoldsWrittenRow(c.phase) || c.txn == Committing || c.txn == Committed)
  }

  predicate PastAuthorize(c: Caller) {
    && c.cmd.CreateCommand?
    && (|| c.phase.Answered? || c.phase.InsertingPayment? || HoldsWrittenRow(c.phase)
        || c.txn == Committing || c.txn == Committed)
  }

  predicate PastAuthorizeCall(c: Caller) {
    c.phase.InAuthorize?
  }

  /** A step that leaves the row alone, and the event unless it is the one that records it. */
  predicate KeepsWrites(c: Caller, c': Caller) {
    && c'.cmd == c.cmd
    && (Doomed(c) ==> Doomed(c'))
    && (RowFinal(c) ==> Doomed(c') || (RowFinal(c') && c'.row == c.row))
    && (RowFinal(c) && !c.phase.RecordingEvent? ==>
          Doomed(c') || (RowFinal(c') && !c'.phase.RecordingEvent? && c'.event == c.event))
  }

  /** Where a step leads that neither asks the provider nor hears from it. */
  predicate Beside(c: Caller, c': Caller) {
    && KeepsWrites(c, c')
    && (PastCapture(c') ==> PastCapture(c)) && (PastAuthorize(c') ==> PastAuthorize(c))
    && (PastAuthorizeCall(c') ==> PastAuthorizeCall(c))
  }

  predicate WithProvider(step: Step) {
    step.CallAuthorize? || step.AuthorizeReturns? || step.CaptureReturns?
  }

  lemma FlowsBeside(step: Step, c: Caller, c': Caller)
    requires Flows(step, c, c') && ControlOk(c) && !WithProvider(step)
    ensures Beside(c, c')
  {
  }

  lemma OthersAreBeside(s: State, s': State, step: Step)
    requires !step.Tick? && !step.Arrive? && !WithProvider(step)
    requires Enabled(s, step) && s' == Apply(s, step) && ControlOk(s.callers[step.id])
    ensures step.id in s'.callers && Beside(s.callers[step.id], s'.callers[step.id])
  {
    StepFlows(s, s', step);
    FlowsBeside(step, s.callers[step.id], s'.callers[step.id]);
  }

  lemma RecordDates(s: State, s': State, id: nat, at: Time)
    requires CallersOk(s) && Enabled(s, RecordOutbox(id, at)) && s' == DoRecordOutbox(s, id, at)
    ensures id in s'.callers && HasEventTime(s'.callers[id], at)
  {
    var c := s.callers[id];
    assert CallerOk(s, c);
    var recorded := RecordEvent(OperationOf(c.cmd), s.nextId, c.cmd.correlationId, c.row.value, at);
    if recorded.Success? { EventTime(OperationOf(c.cmd), s.nextId, c.cmd.correlationId, c.row.value, at); }
  }

  lemma EventTime(operation: Operation, eventId: Id, correlationId: string, row: Payment, at: Time)
    requires RecordEvent(operation, eventId, correlationId, row, at).Success?
    ensures RecordEvent(operation, eventId, correlationId, row, at).value.occurredAt == at
  {
  }

  // ----- authorize -----

  lemma InsertKeepsAuthorize(s: State, s': State, id: nat, createdAt: Time, result: AuthorizeResult, at: Time)
    requires Enabled(s, InsertPayment(id, createdAt)) && s' == DoInsertPayment(s, id, createdAt)
    requires HasAuthorize(s.callers[id], result, at)
    ensures id in s'.callers && HasAuthorize(s'.callers[id], result, at) && HasCreationTime(s'.callers[id], createdAt)
  {
    var c := s.callers[id];
    AuthorizationRowMeans(c.resourceId, c.cmd.merchantId, c.cmd.amountMinor, c.cmd.currency, c.phase.result, c.phase.at,
                          createdAt);
  }

  lemma FlowsKeepAuthorize(step: Step, c: Caller, c': Caller, result: AuthorizeResult, at: Time)
    requires Flows(step, c, c') && ControlOk(c) && HasAuthorize(c, result, at) && !step.InsertPayment?
    ensures HasAuthorize(c', result, at)
  {
  }

  lemma OwnStepKeepsAuthorize(s: State, s': State, step: Step, result: AuthorizeResult, at: Time)
    requires !step.Tick? && !step.Arrive?
    requires Enabled(s, step) && s' == Apply(s, step) && ControlOk(s.callers[step.id])
    requires HasAuthorize(s.callers[step.id], result, at)
    ensures step.id in s'.callers && HasAuthorize(s'.callers[step.id], result, at)
  {
    if step.InsertPayment? {
      InsertKeepsAuthorize(s, s', step.id, step.createdAt, result, at);
    } else {
      StepFlows(s, s', step);
      FlowsKeepAuthorize(step, s.callers[step.id], s'.callers[step.id], result, at);
    }
  }

  lemma {:induction false} AuthorizeKept(run: seq<State>, i: nat, j: nat, id: nat, result: AuthorizeResult, at: Time)
    requires IsRun(run) && i <= j < |run| && id in run[i].callers && HasAuthorize(run[i].callers[id], result, at)
    ensures id in run[j].callers && HasAuthorize(run[j].callers[id], result, at)
    decreases j - i
  {
    if i < j {
      AuthorizeKept(run, i, j - 1, id, result, at);
      var step := OwnOrOther(run, j - 1, id);
      if !step.Tick? && step.id == id { OwnStepKeepsAuthorize(run[j - 1], run[j], step, result, at); }
    }
  }

  // ----- capture -----

  lemma UpdateKeepsCapture(s: State, s': State, id: nat, result: CaptureResult, at: Time)
    requires Enabled(s, UpdatePayment(id)) && s' == DoUpdatePayment(s, id) && HasCapture(s.callers[id], result, at)
    requires PaymentsOk(s)
    ensures HasCapture(s'.callers[id], result, at)
  {
    var p := s.callers[id].resourceId;
    if p in s.payments && s.payments[p].status == Payments.Authorized {
      CapturedRowMeans(s.payments[p], s.callers[id].phase.captureResult, s.callers[id].phase.at);
    }
  }

  lemma FlowsKeepCapture(step: Step, c: Caller, c': Caller, result: CaptureResult, at: Time)
    requires Flows(step, c, c') && ControlOk(c) && HasCapture(c, result, at) && !step.UpdatePayment?
    ensures HasCapture(c', result, at)
  {
  }

  lemma OwnStepKeepsCapture(s: State, s': State, step: Step, result: CaptureResult, at: Time)
    requires !step.Tick? && !step.Arrive?
    requires PaymentsOk(s) && Enabled(s, step) && s' == Apply(s, step) && ControlOk(s.callers[step.id])
    requires HasCapture(s.callers[step.id], result, at)
    ensures step.id in s'.callers && HasCapture(s'.callers[step.id], result, at)
  {
    if step.UpdatePayment? {
      UpdateKeepsCapture(s, s', step.id, result, at);
    } else {
      StepFlows(s, s', step);
      FlowsKeepCapture(step, s.callers[step.id], s'.callers[step.id], result, at);
    }
  }

  lemma {:induction false} CaptureKept(run: seq<State>, i: nat, j: nat, id: nat, result: CaptureResult, at: Time)
    requires IsRun(run) && i <= j < |run| && id in run[i].callers && HasCapture(run[i].callers[id], result, at)
    ensures id in run[j].callers && HasCapture(run[j].callers[id], result, at)
    decreases j - i
  {
    if i < j {
      CaptureKept(run, i, j - 1, id, result, at);
      var step := OwnOrOther(run, j - 1, id);
      RunInv(run, j - 1);
      if !step.Tick? && step.id == id { OwnStepKeepsCapture(run[j - 1], run[j], step, result, at); }
    }
  }

  // ----- the two clocks of the writes -----

  lemma {:induction false} CreationTimeKept(run: seq<State>, i: nat, j: nat, id: nat, createdAt: Time)
    requires IsRun(run) && i <= j < |run| && id in run[i].callers && HasCreationTime(run[i].callers[id], createdAt)
    ensures id in run[j].callers && HasCreationTime(run[j].callers[id], createdAt)
    decreases j - i
  {
    if i < j {
      CreationTimeKept(run, i, j - 1, id, createdAt);
      var step := OwnOrOther(run, j - 1, id);
      if !step.Tick? && step.id == id { OthersAreBeside(run[j - 1], run[j], step); }
    }
  }

  lemma {:induction false} EventTimeKept(run: seq<State>, i: nat, j: nat, id: nat, at: Time)
    requires IsRun(run) && i <= j < |run| && id in run[i].callers && HasEventTime(run[i].callers[id], at)
    ensures id in run[j].callers && HasEventTime(run[j].callers[id], at)
    decreases j - i
  {
    if i < j {
      EventTimeKept(run, i, j - 1, id, at);
      var step := OwnOrOther(run, j - 1, id);
      if !step.Tick? && step.id == id { OthersAreBeside(run[j - 1], run[j], step); }
    }
  }

  // ----- what is committed -----

  lemma AuthorizeIsAnnounced(e: Envelope, row: Payment, result: AuthorizeResult, at: Time)
    requires AgreesWithRow(e, row) && AnnouncedStatus(e) == row.status && AuthorizeStage(e) && AuthorizedAs(row, result, at)
    ensures AnnouncesAuthorize(e, result, at)
  {
  }

  lemma CaptureIsAnnounced(e: Envelope, row: Payment, result: CaptureResult, at: Time)
    requires AgreesWithRow(e, row) && AnnouncedStatus(e) == row.status && CaptureStage(e) && CapturedAs(row, result, at)
    ensures AnnouncesCapture(e, row.providerPaymentId, result, at)
  {
  }

  lemma AuthorizeIsFinal(s: State, id: nat, result: AuthorizeResult, at: Time)
    requires Inv(s) && id in s.callers && s.callers[id].txn == Committed && HasAuthorize(s.callers[id], result, at)
    ensures CommitShows(s, id) && AuthorizedAs(s.callers[id].row.value, result, at)
    ensures AnnouncesAuthorize(s.events[s.callers[id].event.value.eventId], result, at)
  {
    var c := s.callers[id];
    assert CallerOk(s, c);
    CommittedShows(s, id);
    AuthorizeIsAnnounced(c.event.value, c.row.value, result, at);
  }

  lemma CaptureIsFinal(s: State, id: nat, result: CaptureResult, at: Time)
    requires Inv(s) && id in s.callers && s.callers[id].txn == Committed && HasCapture(s.callers[id], result, at)
    ensures CommitShows(s, id) && s.callers[id].cmd.CaptureCommand?
    ensures s.callers[id].cmd.paymentId == s.callers[id].resourceId
    ensures CapturedAs(s.payments[s.callers[id].resourceId], result, at)
    ensures AnnouncesCapture(s.events[s.callers[id].event.value.eventId],
                             s.payments[s.callers[id].resourceId].providerPaymentId, result, at)
  {
    var c := s.callers[id];
    assert CallerOk(s, c);
    CommittedShows(s, id);
    CaptureIsAnnounced(c.event.value, c.row.value, result, at);
  }

  // ----- the results -----

  /**
   If the provider answers `result` to a create's `authorize` and the create commits, then in every later state its
   row, its event and its stored response say `result`, for the payment, merchant, amount and currency asked for.
   */
  lemma AuthorizeAnswerIsCommitted(run: seq<State>, i: nat, j: nat, id: nat, result: AuthorizeResult, at: Time)
    requires IsRun(run) && i < j < |run| && TakenAt(run, i, AuthorizeReturns(id, result, at))
    requires id in run[j].callers && run[j].callers[id].txn == Committed
    ensures CommitShows(run[j], id)
    ensures AuthorizedAs(run[j].callers[id].row.value, result, at)
    ensures AnnouncesAuthorize(run[j].events[run[j].callers[id].event.value.eventId], result, at)
  {
    RunInv(run, i);
    assert CallerOk(run[i], run[i].callers[id]);
    AuthorizeKept(run, i + 1, j, id, result, at);
    RunInv(run, j);
    AuthorizeIsFinal(run[j], id, result, at);
  }

  /**
   If it answers `result` to a capture and the capture commits, then in every later state the payment is CAPTURED at
   that time exactly on success, and otherwise CAPTURE_FAILED at that time with the provider's code and message.
   */
  lemma CaptureAnswerIsCommitted(run: seq<State>, i: nat, j: nat, id: nat, result: CaptureResult, at: Time)
    requires IsRun(run) && i < j < |run| && TakenAt(run, i, CaptureReturns(id, result, at))
    requires id in run[j].callers && run[j].callers[id].txn == Committed
    ensures CommitShows(run[j], id)
    ensures run[j].callers[id].cmd.CaptureCommand? && run[j].callers[id].cmd.paymentId in run[j].payments
    ensures var row := run[j].payments[run[j].callers[id].cmd.paymentId];
            && CapturedAs(row, result, at)
            && AnnouncesCapture(run[j].events[run[j].callers[id].event.value.eventId], row.providerPaymentId, result, at)
            && Shows(run[j].records[KeyOf(run[j].callers[id].cmd)].response.value.body, row)
  {
    RunInv(run, i);
    assert CallerOk(run[i], run[i].callers[id]);
    CaptureKept(run, i + 1, j, id, result, at);
    RunInv(run, j);
    CaptureIsFinal(run[j], id, result, at);
  }

  /** A committed payment was created at the instant of its insert. */
  lemma PaymentsAreDated(run: seq<State>, i: nat, j: nat, id: nat, createdAt: Time)
    requires IsRun(run) && i < j < |run| && TakenAt(run, i, InsertPayment(id, createdAt))
    requires id in run[j].callers && run[j].callers[id].txn == Committed
    ensures CommitShows(run[j], id)
    ensures run[j].payments[run[j].callers[id].resourceId].createdAt == createdAt
  {
    RunInv(run, i);
    InsertDates(run[i], run[i + 1], id, createdAt);
    CreationTimeKept(run, i + 1, j, id, createdAt);
    RunInv(run, j);
    CommittedShows(run[j], id);
  }

  /** Its event occurred when it was recorded. */
  lemma EventsAreDated(run: seq<State>, i: nat, j: nat, id: nat, at: Time)
    requires IsRun(run) && i < j < |run| && TakenAt(run, i, RecordOutbox(id, at))
    requires id in run[j].callers && run[j].callers[id].txn == Committed
    ensures CommitShows(run[j], id)
    ensures run[j].events[run[j].callers[id].event.value.eventId].occurredAt == at
  {
    RunInv(run, i);
    RecordDates(run[i], run[i + 1], id, at);
    EventTimeKept(run, i + 1, j, id, at);
    RunInv(run, j);
    CommittedShows(run[j], id);
  }

  lemma InsertDates(s: State, s': State, id: nat, createdAt: Time)
    requires Inv(s) && Enabled(s, InsertPayment(id, createdAt)) && s' == DoInsertPayment(s, id, createdAt)
    ensures id in s'.callers && HasCreationTime(s'.callers[id], createdAt)
  {
    InsertKeepsAuthorize(s, s', id, createdAt, s.callers[id].phase.result, s.callers[id].phase.at);
  }

  // ----- and without an answer nothing -----

  /** Which step brought the call where it is now. */
  lemma CaptureSteps(s: State, s': State, step: Step)
    requires CallersOk(s) && Enabled(s, step) && s' == Apply(s, step) && !step.Tick? && step.id in s'.callers
    requires step.id in s.callers ==> !PastCapture(s.callers[step.id])
    ensures PastCapture(s'.callers[step.id]) ==> step.CaptureReturns?
  {
    if step.id in s.callers {
      assert CallerOk(s, s.callers[step.id]);
      if !WithProvider(step) { OthersAreBeside(s, s', step); }
    }
  }

  lemma AuthorizeSteps(s: State, s': State, step: Step)
    requires CallersOk(s) && Enabled(s, step) && s' == Apply(s, step) && !step.Tick? && step.id in s'.callers
    requires step.id in s.callers ==> !PastAuthorize(s.callers[step.id])
    ensures PastAuthorize(s'.callers[step.id]) ==> step.AuthorizeReturns?
  {
    if step.id in s.callers {
      assert CallerOk(s, s.callers[step.id]);
      if !WithProvider(step) { OthersAreBeside(s, s', step); }
    }
  }

  lemma AuthorizeCallSteps(s: State, s': State, step: Step)
    requires CallersOk(s) && Enabled(s, step) && s' == Apply(s, step) && !step.Tick? && step.id in s'.callers
    requires step.id in s.callers ==> !PastAuthorizeCall(s.callers[step.id])
    ensures PastAuthorizeCall(s'.callers[step.id]) ==> step.CallAuthorize?
  {
    if step.id in s.callers {
      assert CallerOk(s, s.callers[step.id]);
      if !WithProvider(step) { OthersAreBeside(s, s', step); }
    }
  }

  /** A committed capture was answered by the provider at an earlier step. */
  lemma CommittedCaptureWasAnswered(run: seq<State>, j: nat, id: nat)
      returns (i: nat, result: CaptureResult, at: Time)
    requires IsRun(run) && j < |run| && id in run[j].callers
    requires run[j].callers[id].txn == Committed && run[j].callers[id].cmd.CaptureCommand?
    ensures i < j && TakenAt(run, i, CaptureReturns(id, result, at))
  {
    var step;
    i, step := Became(run, j, id, PastCapture);
    RunInv(run, i);
    CaptureSteps(run[i], run[i + 1], step);
    result, at := step.captureResult, step.at;
  }

  /** A create that is with the provider has asked it: the call is in the log. */
  lemma HasAsked(run: seq<State>, i: nat, id: nat) returns (asked: nat)
    requires IsRun(run) && i < |run| && id in run[i].callers && PastAuthorizeCall(run[i].callers[id])
    ensures asked < |run[i].log|
    ensures var cmd := run[i].callers[id].cmd;
            && cmd.CreateCommand?
            && run[i].log[asked] == AuthorizeCall(id, KeyOf(cmd), run[i].callers[id].resourceId, cmd.merchantId,
                                                  cmd.amountMinor, cmd.currency)
  {
    var m, call := Became(run, i, id, PastAuthorizeCall);
    RunInv(run, m);
    AuthorizeCallSteps(run[m], run[m + 1], call);
    assert CallerOk(run[m], run[m].callers[id]);
    asked := |run[m].log|;
    RunGrows(run, m + 1, i);
  }

  /** A committed create was answered by the provider at an earlier step, and had asked it: the call is in the log. */
  lemma CommittedCreateWasAnswered(run: seq<State>, j: nat, id: nat)
      returns (i: nat, result: AuthorizeResult, at: Time, asked: nat)
    requires IsRun(run) && j < |run| && id in run[j].callers
    requires run[j].callers[id].txn == Committed && run[j].callers[id].cmd.CreateCommand?
    ensures i < j && TakenAt(run, i, AuthorizeReturns(id, result, at))
    ensures run[i].log <= run[j].log && asked < |run[i].log|
    ensures var cmd := run[j].callers[id].cmd;
            run[i].log[asked] == AuthorizeCall(id, KeyOf(cmd), run[j].callers[id].resourceId, cmd.merchantId,
                                               cmd.amountMinor, cmd.currency)
  {
    var step;
    i, step := Became(run, j, id, PastAuthorize);
    RunInv(run, i);
    AuthorizeSteps(run[i], run[i + 1], step);
    result, at := step.result, step.at;
    asked := HasAsked(run, i, id);
    assert CallerOk(run[i], run[i].callers[id]);
    RunGrows(run, i, j);
  }
}
