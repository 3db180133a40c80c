/** The inductive invariant of the payment protocol, one clause group per kind of fact. */
module ProtocolInvariant {
  import opened Options
  import opened Payments
  import opened IdempotencyRecords
  import opened Protocol

  // ----- one call by itself -----

  predicate CreateOnly(phase: Phase) {
    phase.ReadyToAuthorize? || phase.InAuthorize? || phase.Answered? || phase.InsertingPayment?
  }

  predicate CaptureOnly(phase: Phase) {
    phase.ReadyToCapture? || phase.LockingPayment? || phase.Checking? || phase.InCapture? || phase.UpdatingPayment?
  }

  predicate BeforeTransaction(phase: Phase) {
    phase.ReadyToAuthorize? || phase.InAuthorize? || phase.Answered? || phase.ReadyToCapture?
  }

  predicate HoldsReadRow(phase: Phase) {
    phase.Checking? || phase.InCapture? || phase.UpdatingPayment?
  }

  predicate HoldsWrittenRow(phase: Phase) {
    phase.RecordingEvent? || phase.Completing? || phase.ReadyToCommit?
  }

  /** Phases, transaction and locks fit together. */
  predicate ControlOk(c: Caller) {
    && (c.token.None? ==> (Acquiring(c.phase) || c.phase.Done? || c.phase.Crashed?) && c.txn == NotStarted)
    && (Acquiring(c.phase) ==> c.token.None?)
    && (CreateOnly(c.phase) ==> c.cmd.CreateCommand?)
    && (CaptureOnly(c.phase) ==> c.cmd.CaptureCommand?)
    && (BeforeTransaction(c.phase) ==> c.txn == NotStarted)
    && (InTransaction(c.phase) ==> c.txn == Open || c.txn == Aborted)
    && (c.phase.AwaitingCommit? ==> c.txn == Committing || c.txn == Committed || c.txn == Aborted)
    && (c.txn == Open ==> InTransaction(c.phase) || c.phase.Crashed?)
    && (c.paymentLock ==> c.txn == Open || c.txn == Committing)
    && (c.recordLock ==> c.paymentLock)
    && (c.txn == Open && (c.phase.InsertingPayment? || c.phase.LockingPayment?) ==> !c.paymentLock)
    && (c.txn == Open && HoldsReadRow(c.phase) ==> c.paymentLock && !c.recordLock)
    && (c.txn == Open && HoldsWrittenRow(c.phase) ==> c.paymentLock && (c.recordLock <==> c.phase.ReadyToCommit?))
    && (c.txn == Committing ==> c.paymentLock && c.recordLock)
    && (HoldsReadRow(c.phase) || HoldsWrittenRow(c.phase) || c.phase.AwaitingCommit? ==> c.row.Some?)
  }

  /** The row this call writes is the one its command asks for. */
  predicate RowWritten(c: Caller) {
    && c.row.Some?
    && c.row.value.id == c.resourceId
    && OperationStatus(OperationOf(c.cmd), c.row.value.status)
    && Filled(c.row.value)
    && (c.cmd.CreateCommand? ==>
          && c.row.value.merchantId == c.cmd.merchantId
          && c.row.value.amountMinor == c.cmd.amountMinor
          && c.row.value.currency == c.cmd.currency)
  }

  /** The buffered event is the one the outbox service builds for this row. */
  predicate RecordedFrom(e: Envelope, c: Caller)
    requires c.row.Some?
  {
    RecordEvent(OperationOf(c.cmd), e.eventId, c.cmd.correlationId, c.row.value, e.occurredAt) == Success(e)
  }

  /** The buffered event describes the buffered row. */
  predicate EventWritten(c: Caller) {
    && RowWritten(c)
    && WellShaped(c.row.value)
    && c.event.Some?
    && RecordedFrom(c.event.value, c)
    && AgreesWithRow(c.event.value, c.row.value)
    && AnnouncedStatus(c.event.value) == c.row.value.status
    && (AuthorizeStage(c.event.value) <==> c.cmd.CreateCommand?)
    && (CaptureStage(c.event.value) <==> c.cmd.CaptureCommand?)
  }

  /** The buffered completion stores the answer for the buffered row. */
  predicate RecordWritten(c: Caller) {
    && EventWritten(c)
    && c.record.Some?
    && c.record.value.status == Completed
    && c.record.value.response == Some(ReplyOf(c))
    && c.token == Some(c.record.value.processingToken)
    && c.record.value.requestHash == RequestOf(c.cmd)
    && c.record.value.resourceId == c.resourceId
  }

  predicate WritesOk(c: Caller) {
    && (c.txn == Open && c.phase.RecordingEvent? ==> RowWritten(c))
    && (c.txn == Open && c.phase.Completing? ==> EventWritten(c))
    && (c.recordLock || c.txn == Committed ==> RecordWritten(c))
  }

  // ----- one call against the tables -----

  predicate OwnerOk(s: State, c: Caller) {
    c.token.Some? ==>
      var k := KeyOf(c.cmd);
      && c.token.value < s.nextId
      && k in s.records
      && s.records[k].requestHash == RequestOf(c.cmd)
      && s.records[k].resourceId == c.resourceId
      && (c.cmd.CaptureCommand? ==> c.resourceId == c.cmd.paymentId)
      && (c.cmd.CreateCommand? ==> c.resourceId < s.nextId)
  }

  /** What a payment lock protects. */
  predicate PaymentLockOk(s: State, c: Caller) {
    && (c.paymentLock && c.cmd.CreateCommand? ==> c.resourceId !in s.payments)
    && (c.paymentLock && c.cmd.CaptureCommand? ==> c.resourceId in s.payments)
    && (c.paymentLock && c.cmd.CaptureCommand? && HoldsReadRow(c.phase) ==>
          c.row == Some(s.payments[c.resourceId]))
    && (c.paymentLock && c.cmd.CaptureCommand? && (HoldsWrittenRow(c.phase) || c.txn == Committing) ==>
          c.row.Some? && s.payments[c.resourceId].status == Payments.Authorized
          && SameIdentity(s.payments[c.resourceId], c.row.value))
  }

  /** What an idempotency row lock protects: this call is still the owner, and its update is of the current row. */
  predicate RecordLockOk(s: State, c: Caller) {
    c.recordLock ==>
      && c.token.Some?
      && OwnedBy(s.records, KeyOf(c.cmd), c.token.value)
      && c.record.Some?
      && c.record.value == s.records[KeyOf(c.cmd)].(status := Completed, response := c.record.value.response)
  }

  /** A capture that has read its payment knows an earlier version of a well shaped row, alive or not. */
  predicate ReadRowOk(s: State, c: Caller) {
    HoldsReadRow(c.phase) ==>
      && c.row.Some?
      && c.resourceId in s.payments
      && WellShaped(c.row.value)
      && c.row.value.id == c.resourceId
      && SameIdentity(s.payments[c.resourceId], c.row.value)
      && (c.phase.InCapture? || c.phase.UpdatingPayment? ==> c.row.value.status == Payments.Authorized)
  }

  predicate Unreached(e: Error) {
    e == StateNotFound || e == ProviderReferenceMissing || e == InvalidTransition || e == ConditionalUpdateMissed
  }

  predicate AnswersOk(s: State, c: Caller) {
    var k := KeyOf(c.cmd);
    && (c.phase.SecondLookup? || c.phase.Reactivating? || c.phase.TakingOver? ==> k in s.records)
    && (c.phase.Reactivating? || c.phase.TakingOver? ==> s.records[k].requestHash == RequestOf(c.cmd))
    && (c.phase.Done? && c.phase.outcome.Ok? ==>
          && k in s.records && s.records[k].status == Completed && s.records[k].requestHash == RequestOf(c.cmd)
          && s.records[k].response == Some(c.phase.outcome.response))
    && (c.txn == Committed ==> k in s.records && c.record == Some(s.records[k]))
    && (c.phase.Closing? ==> !Unreached(c.phase.cause) && c.phase.cause != RequestInProgress)
    && (c.phase.Done? && c.phase.outcome.Err? ==> !Unreached(c.phase.outcome.error))
  }

  predicate CallerOk(s: State, c: Caller) {
    && ValidCommand(c.cmd)
    && ControlOk(c)
    && WritesOk(c)
    && OwnerOk(s, c)
    && PaymentLockOk(s, c)
    && RecordLockOk(s, c)
    && ReadRowOk(s, c)
    && AnswersOk(s, c)
  }

  ghost predicate CallersOk(s: State) {
    forall id {:trigger CallerOk(s, s.callers[id])} :: id in s.callers ==> CallerOk(s, s.callers[id])
  }

  // ----- calls against each other -----

  predicate Apart(c: Caller, d: Caller) {
    && (c.token.Some? && d.token.Some? ==> c.token != d.token)
    && (c.paymentLock && d.paymentLock ==> c.resourceId != d.resourceId)
  }

  ghost predicate PairsOk(s: State) {
    forall i, j {:trigger Apart(s.callers[i], s.callers[j])} ::
      i in s.callers && j in s.callers && i != j ==> Apart(s.callers[i], s.callers[j])
  }

  // ----- the tables -----

  predicate RecordOk(s: State, k: RecordKey, r: Record) {
    && r.processingToken < s.nextId
    && (r.status == Completed <==> r.response.Some?)
    && match k.scope
       case CreateScope(m) => r.requestHash.CreateRequest? && r.requestHash.merchantId == m && r.resourceId < s.nextId
       case CaptureScope(p) => r.requestHash == CaptureRequest(p) && r.resourceId == p
  }

  ghost predicate RecordsOk(s: State) {
    forall k {:trigger RecordOk(s, k, s.records[k])} :: k in s.records ==> RecordOk(s, k, s.records[k])
  }

  /** Distinct create keys reserve distinct payment ids. */
  ghost predicate ReservationsOk(s: State) {
    forall k, l :: k in s.records && l in s.records && k != l && k.scope.CreateScope? && l.scope.CreateScope? ==>
      s.records[k].resourceId != s.records[l].resourceId
  }

  ghost predicate PaymentsOk(s: State) {
    forall p :: p in s.payments ==>
      s.payments[p].id == p && WellShaped(s.payments[p]) && ValidAmount(s.payments[p].amountMinor)
  }

  // ----- the tables against the calls that committed -----

  predicate CommittedAs(s: State, id: nat, create: bool, p: Id) {
    && id in s.callers
    && s.callers[id].txn == Committed
    && s.callers[id].cmd.CreateCommand? == create
    && s.callers[id].resourceId == p
    && s.callers[id].row.Some?
  }

  predicate PaymentHistoryOk(s: State, p: Id) {
    && (p in s.payments <==> p in s.history.authorizedBy)
    && (p in s.history.capturedBy ==> p in s.payments)
    && (p in s.history.authorizedBy ==>
          && CommittedAs(s, s.history.authorizedBy[p], true, p)
          && SameIdentity(s.callers[s.history.authorizedBy[p]].row.value, s.payments[p])
          && (p !in s.history.capturedBy ==> s.payments[p] == s.callers[s.history.authorizedBy[p]].row.value))
    && (p in s.history.capturedBy ==>
          && CommittedAs(s, s.history.capturedBy[p], false, p)
          && s.payments[p] == s.callers[s.history.capturedBy[p]].row.value
          && p in s.history.authorizedBy
          && CommittedAs(s, s.history.authorizedBy[p], true, p)
          && s.callers[s.history.authorizedBy[p]].row.value.status == Payments.Authorized)
  }

  predicate RecordHistoryOk(s: State, k: RecordKey) {
    && (k in s.records && s.records[k].status == Completed <==> k in s.history.completedBy)
    && (k in s.history.completedBy ==>
          var id := s.history.completedBy[k];
          id in s.callers && s.callers[id].txn == Committed && KeyOf(s.callers[id].cmd) == k)
  }

  predicate EventHistoryOk(s: State, e: Id) {
    && (e in s.events <==> e in s.history.recordedBy)
    && (e in s.history.recordedBy ==>
          var id := s.history.recordedBy[e];
          && e < s.nextId && s.events[e].eventId == e
          && id in s.callers && s.callers[id].txn == Committed && s.callers[id].event == Some(s.events[e]))
  }

  predicate CommitKnown(s: State, id: nat) {
    id in s.callers && s.callers[id].txn == Committed ==>
      var c := s.callers[id];
      && (c.cmd.CreateCommand? ==> c.resourceId in s.history.authorizedBy && s.history.authorizedBy[c.resourceId] == id)
      && (c.cmd.CaptureCommand? ==> c.resourceId in s.history.capturedBy && s.history.capturedBy[c.resourceId] == id)
      && KeyOf(c.cmd) in s.history.completedBy && s.history.completedBy[KeyOf(c.cmd)] == id
      && c.event.Some? && c.event.value.eventId in s.history.recordedBy
      && s.history.recordedBy[c.event.value.eventId] == id
  }

  ghost predicate HistoryOk(s: State) {
    && (forall p :: PaymentHistoryOk(s, p))
    && (forall k :: RecordHistoryOk(s, k))
    && (forall e :: EventHistoryOk(s, e))
    && (forall id :: CommitKnown(s, id))
  }

  /** An event id in a transaction's buffer is known to no one else. */
  predicate EventIdOk(s: State, c: Caller) {
    c.event.Some? ==> c.event.value.eventId < s.nextId && (c.txn != Committed ==> c.event.value.eventId !in s.events)
  }

  predicate EventsApart(c: Caller, d: Caller) {
    c.event.Some? && d.event.Some? ==> c.event.value.eventId != d.event.value.eventId
  }

  ghost predicate EventIdsOk(s: State) {
    && (forall id {:trigger EventIdOk(s, s.callers[id])} :: id in s.callers ==> EventIdOk(s, s.callers[id]))
    && (forall i, j {:trigger EventsApart(s.callers[i], s.callers[j])} ::
          i in s.callers && j in s.callers && i != j ==> EventsApart(s.callers[i], s.callers[j]))
  }

  // ----- the provider log -----

  /** The call has not yet reached the provider's capture. */
  predicate BeforeCapture(phase: Phase) {
    Acquiring(phase) || phase.ReadyToCapture? || phase.LockingPayment? || phase.Checking?
  }

  predicate CallOk(s: State, call: Call) {
    match call
    case AuthorizeCall(id, k, p, merchantId, amountMinor, currency) =>
      && k in s.records
      && k.scope == CreateScope(merchantId)
      && s.records[k].resourceId == p
      && s.records[k].requestHash == CreateRequest(merchantId, amountMinor, currency)
    case CaptureCall(id, p, reference, amountMinor, currency, live) =>
      && id in s.callers
      && s.callers[id].cmd.CaptureCommand?
      && s.callers[id].cmd.paymentId == p
      && !BeforeCapture(s.callers[id].phase)
      && p in s.payments
      && s.payments[p].amountMinor == amountMinor
      && s.payments[p].currency == currency
      && s.payments[p].providerPaymentId == Some(reference)
  }

  ghost predicate LogOk(s: State) {
    && (forall i :: 0 <= i < |s.log| ==> CallOk(s, s.log[i]))
    && (forall i, j :: 0 <= i < j < |s.log| && s.log[i].CaptureCall? && s.log[j].CaptureCall? ==>
          s.log[i].caller != s.log[j].caller)
  }

  ghost predicate Inv(s: State) {
    && CallersOk(s)
    && PairsOk(s)
    && RecordsOk(s)
    && ReservationsOk(s)
    && PaymentsOk(s)
    && HistoryOk(s)
    && EventIdsOk(s)
    && LogOk(s)
  }
}
