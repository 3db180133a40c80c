/** The three tables agree in every reachable state, and rows only move along the transition table. */
module CrossTable {
  import opened Options
  import opened Payments
  import opened IdempotencyRecords
  import opened Protocol
  import opened ProtocolInvariant
  import opened ProtocolRuns

  predicate CompletedCreate(s: State, p: Id, k: RecordKey) {
    k in s.records && k.scope.CreateScope? && s.records[k].status == Completed && s.records[k].resourceId == p
  }

  predicate CompletedCapture(s: State, p: Id, k: RecordKey) {
    k in s.records && k.scope == CaptureScope(p) && s.records[k].status == Completed
  }

  predicate AuthorizeEvent(s: State, p: Id, e: Id) {
    e in s.events && s.events[e].aggregateId == p && AuthorizeStage(s.events[e])
  }

  predicate CaptureEvent(s: State, p: Id, e: Id) {
    e in s.events && s.events[e].aggregateId == p && CaptureStage(s.events[e])
  }

  ghost predicate OneCompletedCreate(s: State, p: Id) {
    exists k :: CompletedCreate(s, p, k) && forall l :: CompletedCreate(s, p, l) ==> l == k
  }

  ghost predicate OneCompletedCapture(s: State, p: Id) {
    exists k :: CompletedCapture(s, p, k) && forall l :: CompletedCapture(s, p, l) ==> l == k
  }

  ghost predicate OneAuthorizeEvent(s: State, p: Id) {
    exists e :: AuthorizeEvent(s, p, e) && forall f :: AuthorizeEvent(s, p, f) ==> f == e
  }

  ghost predicate OneCaptureEvent(s: State, p: Id) {
    exists e :: CaptureEvent(s, p, e) && forall f :: CaptureEvent(s, p, f) ==> f == e
  }

  predicate IsCaptured(s: State, p: Id) {
    p in s.payments && (s.payments[p].status == Captured || s.payments[p].status == CaptureFailed)
  }

  // ----- from the bookkeeping to existence and uniqueness -----

  lemma CompletedCreateHasPayment(s: State, p: Id, k: RecordKey) returns (id: nat)
    requires Inv(s) && CompletedCreate(s, p, k)
    ensures p in s.payments && p in s.history.authorizedBy && s.history.authorizedBy[p] == id
    ensures id in s.callers && KeyOf(s.callers[id].cmd) == k
  {
    assert RecordHistoryOk(s, k);
    id := s.history.completedBy[k];
    assert CallerOk(s, s.callers[id]) && CommitKnown(s, id);
    assert PaymentHistoryOk(s, p);
  }

  lemma AuthorizeEventHasPayment(s: State, p: Id, e: Id) returns (id: nat)
    requires Inv(s) && AuthorizeEvent(s, p, e)
    ensures p in s.payments && p in s.history.authorizedBy && s.history.authorizedBy[p] == id
    ensures id in s.callers && s.callers[id].event == Some(s.events[e]) && s.events[e].eventId == e
  {
    assert EventHistoryOk(s, e);
    id := s.history.recordedBy[e];
    assert CallerOk(s, s.callers[id]) && CommitKnown(s, id);
    assert PaymentHistoryOk(s, p);
  }

  lemma CompletedCaptureHasPayment(s: State, p: Id, k: RecordKey) returns (id: nat)
    requires Inv(s) && CompletedCapture(s, p, k)
    ensures p in s.history.capturedBy && s.history.capturedBy[p] == id
    ensures id in s.callers && KeyOf(s.callers[id].cmd) == k
  {
    assert RecordHistoryOk(s, k);
    id := s.history.completedBy[k];
    assert CallerOk(s, s.callers[id]) && CommitKnown(s, id);
    assert PaymentHistoryOk(s, p);
  }

  lemma CaptureEventHasPayment(s: State, p: Id, e: Id) returns (id: nat)
    requires Inv(s) && CaptureEvent(s, p, e)
    ensures p in s.history.capturedBy && s.history.capturedBy[p] == id
    ensures id in s.callers && s.callers[id].event == Some(s.events[e]) && s.events[e].eventId == e
  {
    assert EventHistoryOk(s, e);
    id := s.history.recordedBy[e];
    assert CallerOk(s, s.callers[id]) && CommitKnown(s, id);
    assert PaymentHistoryOk(s, p);
  }

  /** A payment's creating call completed one record and recorded one event. */
  lemma PaymentHasCreate(s: State, p: Id)
    requires Inv(s) && p in s.payments
    ensures OneCompletedCreate(s, p) && OneAuthorizeEvent(s, p)
  {
    assert PaymentHistoryOk(s, p);
    var id := s.history.authorizedBy[p];
    var c := s.callers[id];
    assert CallerOk(s, c) && CommitKnown(s, id);
    var k, e := KeyOf(c.cmd), c.event.value.eventId;
    assert RecordHistoryOk(s, k) && EventHistoryOk(s, e);
    assert CompletedCreate(s, p, k) && AuthorizeEvent(s, p, e);
    forall l | CompletedCreate(s, p, l) ensures l == k { var _ := CompletedCreateHasPayment(s, p, l); }
    forall f | AuthorizeEvent(s, p, f) ensures f == e { var _ := AuthorizeEventHasPayment(s, p, f); }
  }

  lemma CapturedHasCapture(s: State, p: Id)
    requires Inv(s) && p in s.history.capturedBy
    ensures OneCompletedCapture(s, p) && OneCaptureEvent(s, p) && IsCaptured(s, p)
  {
    assert PaymentHistoryOk(s, p);
    var id := s.history.capturedBy[p];
    var c := s.callers[id];
    assert CallerOk(s, c) && CommitKnown(s, id);
    var k, e := KeyOf(c.cmd), c.event.value.eventId;
    assert RecordHistoryOk(s, k) && EventHistoryOk(s, e);
    assert CompletedCapture(s, p, k) && CaptureEvent(s, p, e);
    forall l | CompletedCapture(s, p, l) ensures l == k { var _ := CompletedCaptureHasPayment(s, p, l); }
    forall f | CaptureEvent(s, p, f) ensures f == e { var _ := CaptureEventHasPayment(s, p, f); }
  }

  lemma CapturedIsRecorded(s: State, p: Id)
    requires Inv(s) && IsCaptured(s, p)
    ensures p in s.history.capturedBy
  {
    assert PaymentHistoryOk(s, p);
    assert CallerOk(s, s.callers[s.history.authorizedBy[p]]);
  }

  // ----- the agreement -----

  /**
   A payment exists exactly when one COMPLETED create record reserves it, and exactly when one authorize-stage
   event is recorded for it; none of the three ever stands alone.
   */
  lemma CreateAgreement(s: State, p: Id)
    requires Reachable(s)
    ensures p in s.payments <==> OneCompletedCreate(s, p)
    ensures p in s.payments <==> OneAuthorizeEvent(s, p)
    ensures p !in s.payments ==> forall k :: !CompletedCreate(s, p, k)
    ensures p !in s.payments ==> forall e :: !AuthorizeEvent(s, p, e)
  {
    ReachableInv(s);
    if p in s.payments { PaymentHasCreate(s, p); }
    forall k | CompletedCreate(s, p, k) ensures p in s.payments { var _ := CompletedCreateHasPayment(s, p, k); }
    forall e | AuthorizeEvent(s, p, e) ensures p in s.payments { var _ := AuthorizeEventHasPayment(s, p, e); }
  }

  /**
   A payment is CAPTURED or CAPTURE_FAILED exactly when one capture record, over all keys, is COMPLETED for it,
   and exactly when one capture-stage event is recorded for it.
   */
  lemma CaptureAgreement(s: State, p: Id)
    requires Reachable(s)
    ensures IsCaptured(s, p) <==> OneCompletedCapture(s, p)
    ensures IsCaptured(s, p) <==> OneCaptureEvent(s, p)
    ensures !IsCaptured(s, p) ==> forall k :: !CompletedCapture(s, p, k)
    ensures !IsCaptured(s, p) ==> forall e :: !CaptureEvent(s, p, e)
  {
    ReachableInv(s);
    if IsCaptured(s, p) { CapturedIsRecorded(s, p); CapturedHasCapture(s, p); }
    forall k | CompletedCapture(s, p, k) ensures IsCaptured(s, p) {
      var _ := CompletedCaptureHasPayment(s, p, k);
      CapturedHasCapture(s, p);
    }
    forall e | CaptureEvent(s, p, e) ensures IsCaptured(s, p) {
      var _ := CaptureEventHasPayment(s, p, e);
      CapturedHasCapture(s, p);
    }
  }

  /** The call whose commit recorded the event. */
  predicate RecordedBy(s: State, e: Id, id: nat) {
    && e in s.history.recordedBy && s.history.recordedBy[e] == id
    && id in s.callers && s.callers[id].txn == Committed
  }

  /**
   A capture-stage event announces the payment's status and fields; an authorize-stage event those it had before. Every
   event carries the correlation id of the request that brought it about.
   */
  lemma EventsTellTheStatus(s: State, e: Id)
    requires Reachable(s) && e in s.events
    ensures exists id :: RecordedBy(s, e, id)
    ensures forall id :: RecordedBy(s, e, id) ==> s.events[e].correlationId == s.callers[id].cmd.correlationId
    ensures var p := s.events[e].aggregateId;
            && p in s.payments
            && s.events[e].eventId == e && s.events[e].eventVersion == 1 && TypedAs(s.events[e])
            && s.events[e].payload.paymentId == p
            && s.events[e].payload.merchantId == s.payments[p].merchantId
            && s.events[e].payload.amountMinor == s.payments[p].amountMinor
            && s.events[e].payload.currency == s.payments[p].currency
            && s.events[e].payload.provider == s.payments[p].provider
            && (AuthorizeStage(s.events[e]) <==> !CaptureStage(s.events[e]))
            && (CaptureStage(s.events[e]) ==>
                  AnnouncedStatus(s.events[e]) == s.payments[p].status && AgreesWithRow(s.events[e], s.payments[p]))
            && (AuthorizeStage(s.events[e]) ==>
                  AnnouncedStatus(s.events[e]) == (if IsCaptured(s, p) then Payments.Authorized else s.payments[p].status))
            && (AuthorizeStage(s.events[e]) && !IsCaptured(s, p) ==> AgreesWithRow(s.events[e], s.payments[p]))
  {
    ReachableInv(s);
    assert EventHistoryOk(s, e);
    var id := s.history.recordedBy[e];
    var p := s.callers[id].resourceId;
    assert CallerOk(s, s.callers[id]) && CommitKnown(s, id);
    assert PaymentHistoryOk(s, p);
    assert RecordedBy(s, e, id);
    DescribesItsRow(s.callers[id], s.events[e]);
    if IsCaptured(s, p) { CapturedIsRecorded(s, p); }
    if p in s.history.capturedBy { CapturedHasCapture(s, p); }
  }

  lemma DescribesItsRow(c: Caller, e: Envelope)
    requires EventWritten(c) && c.event == Some(e)
    ensures e.correlationId == c.cmd.correlationId && e.eventVersion == 1 && TypedAs(e)
  {
    RecordedEventDescribesRow(OperationOf(c.cmd), e.eventId, c.cmd.correlationId, c.row.value, e.occurredAt);
  }

  /** A committed call's row, event and stored answer, as everyone finds them. */
  predicate CommitShows(s: State, id: nat)
    requires id in s.callers
  {
    var c := s.callers[id];
    && c.row.Some? && c.row.value.id == c.resourceId && c.event.Some?
    && c.resourceId in s.payments && SameIdentity(c.row.value, s.payments[c.resourceId])
    && (c.cmd.CaptureCommand? || !IsCaptured(s, c.resourceId) ==> s.payments[c.resourceId] == c.row.value)
    && (c.cmd.CreateCommand? ==>
          && c.row.value.merchantId == c.cmd.merchantId && c.row.value.amountMinor == c.cmd.amountMinor
          && c.row.value.currency == c.cmd.currency)
    && c.event.value.eventId in s.events && s.events[c.event.value.eventId] == c.event.value
    && c.event.value.correlationId == c.cmd.correlationId && AgreesWithRow(c.event.value, c.row.value)
    && AnnouncedStatus(c.event.value) == c.row.value.status
    && (if c.cmd.CreateCommand? then AuthorizeStage(c.event.value) else CaptureStage(c.event.value))
    && KeyOf(c.cmd) in s.records && s.records[KeyOf(c.cmd)].status == Completed
    && s.records[KeyOf(c.cmd)].response.Some?
    && s.records[KeyOf(c.cmd)].response.value.statusCode == (if c.cmd.CreateCommand? then 201 else 200)
    && Shows(s.records[KeyOf(c.cmd)].response.value.body, c.row.value)
  }

  lemma CommittedShows(s: State, id: nat)
    requires Inv(s) && id in s.callers && s.callers[id].txn == Committed
    ensures CommitShows(s, id)
  {
    var c := s.callers[id];
    assert CallerOk(s, c) && CommitKnown(s, id);
    assert PaymentHistoryOk(s, c.resourceId) && EventHistoryOk(s, c.event.value.eventId);
    DescribesItsRow(c, c.event.value);
    DtoShows(c.row.value);
    if c.resourceId in s.history.capturedBy { CapturedHasCapture(s, c.resourceId); }
  }

  /**
   Every recorded envelope meets its published JSON Schema exactly when the provider gave a name that is not
   empty and no empty reference: the two fields the service passes on unchecked.
   */
  lemma RecordedEnvelopesMeetContractIff(s: State, e: Id)
    requires Reachable(s) && e in s.events
    ensures s.events[e].aggregateId in s.payments
    ensures var row := s.payments[s.events[e].aggregateId];
            (MeetsContract(s.events[e]) <==>
               row.provider != "" && (row.providerPaymentId.None? || row.providerPaymentId.value != ""))
  {
    EventsTellTheStatus(s, e);
    ReachableInv(s);
    assert EventHistoryOk(s, e);
    var id := s.history.recordedBy[e];
    var c := s.callers[id];
    assert CallerOk(s, c) && CommitKnown(s, id);
    var p := c.resourceId;
    assert PaymentHistoryOk(s, p) && s.payments[p].id == p;
    assert SameIdentity(c.row.value, s.payments[p]);
    RecordedEventMeetsContractIff(OperationOf(c.cmd), s.events[e].eventId, c.cmd.correlationId, c.row.value,
                                  s.events[e].occurredAt);
  }

  /** Every committed row is well shaped, and in particular an AUTHORIZED row carries a provider reference. */
  lemma RowsAreWellShaped(s: State, p: Id)
    requires Reachable(s) && p in s.payments
    ensures s.payments[p].id == p && WellShaped(s.payments[p]) && ValidAmount(s.payments[p].amountMinor)
    ensures s.payments[p].status != Created
    ensures s.payments[p].status == Payments.Authorized ==> NonEmpty(s.payments[p].providerPaymentId)
  {
    ReachableInv(s);
  }

  /** Over any stretch of a run a payment never disappears, keeps its identity, and follows one allowed edge at most. */
  lemma StatusFollowsTransitions(run: seq<State>, i: nat, j: nat, p: Id)
    requires IsRun(run) && i <= j < |run|
    requires p in run[i].payments
    ensures p in run[j].payments && SameIdentity(run[i].payments[p], run[j].payments[p])
    ensures run[j].payments[p] == run[i].payments[p]
         || CanTransition(run[i].payments[p].status, run[j].payments[p].status)
    ensures run[j].payments[p] != run[i].payments[p] ==> run[i].payments[p].status == Payments.Authorized
  {
    RunGrows(run, i, j);
  }

  /** A payment first appears in a status CREATED may move to. */
  lemma NewPaymentsAreAuthorizedOrFailed(s: State, step: Step, p: Id)
    requires Reachable(s) && Enabled(s, step)
    requires p !in s.payments && p in Apply(s, step).payments
    ensures step.DbCommit? && CanTransition(Created, Apply(s, step).payments[p].status)
  {
    ReachableInv(s);
    StepEffect(s, Apply(s, step), step);
    OnlyCommitsAdd(s, Apply(s, step), step, p);
    assert CallerOk(s, s.callers[step.id]);
    CommitAdds(s, step.id, p);
  }

  lemma OnlyCommitsAdd(s: State, s': State, step: Step, p: Id)
    requires Effect(s, s', step) && p !in s.payments && p in s'.payments
    ensures step.DbCommit?
  {
  }

  lemma CommitAdds(s: State, id: nat, p: Id)
    requires Enabled(s, DbCommit(id)) && ControlOk(s.callers[id]) && WritesOk(s.callers[id])
    requires PaymentLockOk(s, s.callers[id])
    requires p !in s.payments && p in DoDbCommit(s, id).payments
    ensures CanTransition(Created, DoDbCommit(s, id).payments[p].status)
  {
  }
}
