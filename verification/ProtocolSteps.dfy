/** Every step of the payment protocol keeps the invariant. */
module ProtocolSteps {
  import opened Options
  import opened Payments
  import opened IdempotencyRecords
  import opened Protocol
  import opened ProtocolInvariant
  import opened ProtocolFrames

  /** Recording succeeds exactly on rows whose strings are present, and describes them. */
  lemma RecordedIffShaped(operation: Operation, eventId: Id, correlationId: string, row: Payment, at: Time)
    requires Filled(row) && OperationStatus(operation, row.status)
    ensures RecordEvent(operation, eventId, correlationId, row, at).Success? <==> WellShaped(row)
  {
  }

  lemma TickKeepsInv(s: State, now: Time)
    requires Inv(s) && s.now <= now
    ensures Inv(s.(now := now))
  {
    var s' := s.(now := now);
    forall d | d in s'.callers ensures CallerOk(s', s'.callers[d]) { CallerKept(s, s', s.callers[d]); }
    forall i, j | i in s'.callers && j in s'.callers && i != j
      ensures Apart(s'.callers[i], s'.callers[j]) && EventsApart(s'.callers[i], s'.callers[j]) {
      assert Apart(s.callers[i], s.callers[j]) && EventsApart(s.callers[i], s.callers[j]);
    }
    forall k | k in s'.records ensures RecordOk(s', k, s'.records[k]) { assert RecordOk(s, k, s.records[k]); }
    forall p ensures PaymentHistoryOk(s', p) { assert PaymentHistoryOk(s, p); }
    forall k ensures RecordHistoryOk(s', k) { assert RecordHistoryOk(s, k); }
    forall e ensures EventHistoryOk(s', e) { assert EventHistoryOk(s, e); }
    forall i ensures CommitKnown(s', i) { assert CommitKnown(s, i); }
    forall i | i in s'.callers ensures EventIdOk(s', s'.callers[i]) { assert EventIdOk(s, s.callers[i]); }
    forall i | 0 <= i < |s'.log| ensures CallOk(s', s'.log[i]) { assert CallOk(s, s.log[i]); }
  }

  ghost predicate Arrived(s: State, s': State, id: nat) {
    && id !in s.callers && id in s'.callers
    && s'.callers == s.callers[id := s'.callers[id]]
    && s'.records == s.records && s'.payments == s.payments && s'.events == s.events
    && s'.log == s.log && s'.history == s.history && s'.nextId == s.nextId
    && s'.callers[id].token.None? && s'.callers[id].event.None? && !s'.callers[id].paymentLock
    && s'.callers[id].txn == NotStarted
  }

  lemma ArriveKeepsPairs(s: State, s': State, id: nat)
    requires PairsOk(s) && EventIdsOk(s) && Arrived(s, s', id)
    ensures PairsOk(s') && EventIdsOk(s')
  {
    forall i, j | i in s'.callers && j in s'.callers && i != j
      ensures Apart(s'.callers[i], s'.callers[j]) && EventsApart(s'.callers[i], s'.callers[j]) {
      if i != id && j != id { assert Apart(s.callers[i], s.callers[j]) && EventsApart(s.callers[i], s.callers[j]); }
    }
    forall i | i in s'.callers ensures EventIdOk(s', s'.callers[i]) {
      if i != id { assert EventIdOk(s, s.callers[i]); }
    }
  }

  lemma ArriveKeepsHistory(s: State, s': State, id: nat)
    requires HistoryOk(s) && Arrived(s, s', id)
    ensures HistoryOk(s')
  {
    forall p ensures PaymentHistoryOk(s', p) { assert PaymentHistoryOk(s, p); }
    forall k ensures RecordHistoryOk(s', k) { assert RecordHistoryOk(s, k); }
    forall e ensures EventHistoryOk(s', e) { assert EventHistoryOk(s, e); }
    forall i ensures CommitKnown(s', i) { assert CommitKnown(s, i); }
  }

  lemma ArriveKeepsTables(s: State, s': State, id: nat)
    requires RecordsOk(s) && ReservationsOk(s) && PaymentsOk(s) && LogOk(s) && Arrived(s, s', id)
    ensures RecordsOk(s') && ReservationsOk(s') && PaymentsOk(s') && LogOk(s')
  {
    forall k | k in s'.records ensures RecordOk(s', k, s'.records[k]) { assert RecordOk(s, k, s.records[k]); }
    forall i | 0 <= i < |s'.log| ensures CallOk(s', s'.log[i]) { assert CallOk(s, s.log[i]); }
  }

  lemma ArriveKeepsInv(s: State, id: nat, cmd: Command)
    requires Inv(s) && Enabled(s, Arrive(id, cmd))
    ensures Inv(Apply(s, Arrive(id, cmd)))
  {
    var s' := Apply(s, Arrive(id, cmd));
    OthersKept(s, s', id);
    ArriveKeepsPairs(s, s', id);
    ArriveKeepsHistory(s, s', id);
    ArriveKeepsTables(s, s', id);
  }

  // ----- acquisition -----

  /** A move of one call that takes no lock and gives up nothing it has promised. */
  predicate Move(c: Caller, c': Caller) {
    SameClaims(c, c') && c'.event == c.event && (c'.paymentLock ==> c.paymentLock)
  }

  lemma DecidedCallerOk(s: State, c: Caller, appNow: Time)
    requires CallerOk(s, c) && (c.phase.FirstLookup? || c.phase.SecondLookup?)
    requires KeyOf(c.cmd) in s.records && RecordOk(s, KeyOf(c.cmd), s.records[KeyOf(c.cmd)])
    ensures var c' := c.(phase := Decide(c, s.records[KeyOf(c.cmd)], appNow)); CallerOk(s, c') && Move(c, c')
  {
  }

  lemma UnclaimedCallerOk(s: State, c: Caller)
    requires CallerOk(s, c) && c.phase.FirstLookup?
    ensures var c' := c.(phase := Inserting); CallerOk(s, c') && Move(c, c')
  {
  }

  lemma LookupKeepsInv(s: State, id: nat, appNow: Time)
    requires Inv(s) && Enabled(s, Lookup(id, appNow))
    ensures Inv(Apply(s, Lookup(id, appNow)))
  {
    var c := s.callers[id];
    var k := KeyOf(c.cmd);
    assert CallerOk(s, c);
    if k in s.records {
      assert RecordOk(s, k, s.records[k]);
      DecidedCallerOk(s, c, appNow);
      MoveKeepsInv(s, id, c.(phase := Decide(c, s.records[k], appNow)));
    } else {
      UnclaimedCallerOk(s, c);
      MoveKeepsInv(s, id, c.(phase := Inserting));
    }
  }

  /** An acquiring write, executed: the row is claimed under a fresh token, by the caller unless its answer is lost. */
  ghost predicate Claimed(s: State, s': State, id: nat, r: Record, refused: Phase, lost: bool)
    requires id in s.callers
  {
    var k := KeyOf(s.callers[id].cmd);
    && s' == Acquired(s, id, (s.records[k := r], Some(r)), refused, lost)
    && r.processingToken == s.nextId
    && r.status == Processing && r.response.None?
    && r.requestHash == RequestOf(s.callers[id].cmd)
    && if k in s.records
       then s.records[k].status != Completed && r.requestHash == s.records[k].requestHash
            && r.resourceId == s.records[k].resourceId && RecordOk(s, k, s.records[k])
       else r.resourceId == ReservedId(s, s.callers[id].cmd)
  }

  lemma ClaimedCallerOk(s: State, s': State, id: nat, r: Record, refused: Phase, lost: bool)
    requires id in s.callers && CallerOk(s, s.callers[id]) && Acquiring(s.callers[id].phase)
    requires Claimed(s, s', id, r, refused, lost)
    ensures CallerOk(s', s'.callers[id])
  {
  }

  lemma ClaimedChange(s: State, s': State, id: nat, r: Record, refused: Phase, lost: bool)
    requires id in s.callers && ControlOk(s.callers[id]) && Acquiring(s.callers[id].phase)
    requires RecordFree(s, KeyOf(s.callers[id].cmd))
    requires Claimed(s, s', id, r, refused, lost)
    ensures RecordChange(s, s', id, KeyOf(s.callers[id].cmd), r)
  {
  }

  lemma ClaimKeepsInv(s: State, s': State, id: nat, r: Record, refused: Phase, lost: bool)
    requires Inv(s)
    requires id in s.callers && Acquiring(s.callers[id].phase)
    requires RecordFree(s, KeyOf(s.callers[id].cmd))
    requires Claimed(s, s', id, r, refused, lost)
    ensures Inv(s')
  {
    ClaimedCallerOk(s, s', id, r, refused, lost);
    ClaimedChange(s, s', id, r, refused, lost);
    RecordChangeKeepsInv(s, s', id, KeyOf(s.callers[id].cmd), r);
  }

  /** An acquiring write that matched no row leaves the tables alone. */
  lemma RefusalKeepsInv(s: State, id: nat, refused: Phase, lost: bool)
    requires Inv(s)
    requires id in s.callers && Acquiring(s.callers[id].phase)
    requires refused == Done(Err(RequestInProgress))
          || (refused == SecondLookup && KeyOf(s.callers[id].cmd) in s.records)
    ensures Inv(Acquired(s, id, (s.records, None), refused, lost))
  {
    var s' := Acquired(s, id, (s.records, None), refused, lost);
    RefusedCallerOk(s, s', s.callers[id], s'.callers[id]);
    LocalKeepsInv(s, s', id);
  }

  lemma RefusedCallerOk(s: State, s': State, c: Caller, c': Caller)
    requires CallerOk(s, c) && Acquiring(c.phase) && SameTables(s, s')
    requires c' == c.(phase := c'.phase)
    requires c'.phase == Done(Err(RequestInProgress)) || c'.phase == Done(Err(DatabaseError))
          || (c'.phase == SecondLookup && KeyOf(c.cmd) in s.records)
    ensures CallerOk(s', c')
  {
    CallerKept(s, s', c);
  }

  lemma UnknownKeyIsFree(s: State, k: RecordKey)
    requires CallersOk(s) && k !in s.records
    ensures RecordFree(s, k)
  {
    forall d | d in s.callers && s.callers[d].recordLock ensures KeyOf(s.callers[d].cmd) != k {
      assert CallerOk(s, s.callers[d]);
    }
  }

  lemma TryInsertKeepsInv(s: State, id: nat, expiresAt: Time, lost: bool)
    requires Inv(s) && Enabled(s, TryInsert(id, expiresAt, lost))
    ensures Inv(Apply(s, TryInsert(id, expiresAt, lost)))
  {
    var s' := Apply(s, TryInsert(id, expiresAt, lost));
    var cmd := s.callers[id].cmd;
    var k := KeyOf(cmd);
    if k in s.records {
      RefusalKeepsInv(s, id, SecondLookup, lost);
    } else {
      UnknownKeyIsFree(s, k);
      ClaimKeepsInv(s, s', id, s'.records[k], SecondLookup, lost);
    }
  }

  lemma ReactivateKeepsInv(s: State, id: nat, expiresAt: Time, lost: bool)
    requires Inv(s) && Enabled(s, Reactivate(id, expiresAt, lost))
    ensures Inv(Apply(s, Reactivate(id, expiresAt, lost)))
  {
    var s' := Apply(s, Reactivate(id, expiresAt, lost));
    var cmd := s.callers[id].cmd;
    var k := KeyOf(cmd);
    if ReactivateFailed(s.records, k, RequestOf(cmd), expiresAt, s.nextId).1.None? {
      RefusalKeepsInv(s, id, Done(Err(RequestInProgress)), lost);
    } else {
      assert RecordOk(s, k, s.records[k]);
      ClaimKeepsInv(s, s', id, s'.records[k], Done(Err(RequestInProgress)), lost);
    }
  }

  lemma TakeoverKeepsInv(s: State, id: nat, expiresAt: Time, statementNow: Time, lost: bool)
    requires Inv(s) && Enabled(s, Takeover(id, expiresAt, statementNow, lost))
    ensures Inv(Apply(s, Takeover(id, expiresAt, statementNow, lost)))
  {
    var s' := Apply(s, Takeover(id, expiresAt, statementNow, lost));
    var cmd := s.callers[id].cmd;
    var k := KeyOf(cmd);
    if TakeoverExpiredProcessing(s.records, k, RequestOf(cmd), statementNow, expiresAt, s.nextId).1.None? {
      RefusalKeepsInv(s, id, Done(Err(RequestInProgress)), lost);
    } else {
      assert RecordOk(s, k, s.records[k]);
      ClaimKeepsInv(s, s', id, s'.records[k], Done(Err(RequestInProgress)), lost);
    }
  }

  // ----- closing a failed attempt -----

  lemma ClosedCallerOk(s: State, s': State, c: Caller, c': Caller)
    requires CallerOk(s, c) && c.phase.Closing? && c.token.Some? && !c.recordLock
    requires c' == c.(phase := c'.phase)
    requires c'.phase == Done(Err(c.phase.cause)) || c'.phase == Done(Err(OwnershipLost))
    requires Undisturbed(s, s', c)
    ensures CallerOk(s', c')
  {
    CallerKept(s, s', c);
  }

  lemma ClosedChange(s: State, s': State, id: nat, lost: bool)
    requires Enabled(s, CloseFailed(id, lost)) && s' == DoCloseFailed(s, id, lost)
    requires ControlOk(s.callers[id]) && !s.callers[id].recordLock
    requires OwnedBy(s.records, KeyOf(s.callers[id].cmd), s.callers[id].token.value)
    requires RecordOk(s, KeyOf(s.callers[id].cmd), s.records[KeyOf(s.callers[id].cmd)])
    ensures var k := KeyOf(s.callers[id].cmd);
            k in s'.records && RecordChange(s, s', id, k, s'.records[k]) && Undisturbed(s, s', s.callers[id])
  {
  }

  lemma CloseMatchedKeepsInv(s: State, id: nat, lost: bool)
    requires Inv(s) && Enabled(s, CloseFailed(id, lost))
    requires OwnedBy(s.records, KeyOf(s.callers[id].cmd), s.callers[id].token.value)
    ensures Inv(Apply(s, CloseFailed(id, lost)))
  {
    var s' := Apply(s, CloseFailed(id, lost));
    var k := KeyOf(s.callers[id].cmd);
    assert CallerOk(s, s.callers[id]) && RecordOk(s, k, s.records[k]);
    ClosedChange(s, s', id, lost);
    ClosedCallerOk(s, s', s.callers[id], s'.callers[id]);
    RecordChangeKeepsInv(s, s', id, k, s'.records[k]);
  }

  lemma CloseMissedKeepsInv(s: State, id: nat, c': Caller)
    requires Inv(s) && id in s.callers
    requires s.callers[id].phase.Closing? && s.callers[id].token.Some? && !s.callers[id].recordLock
    requires c' == s.callers[id].(phase := c'.phase)
    requires c'.phase == Done(Err(s.callers[id].phase.cause)) || c'.phase == Done(Err(OwnershipLost))
    ensures Inv(Put(s, id, c'))
  {
    ClosedCallerOk(s, s, s.callers[id], c');
    MoveKeepsInv(s, id, c');
  }

  lemma CloseFailedKeepsInv(s: State, id: nat, lost: bool)
    requires Inv(s) && Enabled(s, CloseFailed(id, lost))
    ensures Inv(Apply(s, CloseFailed(id, lost)))
  {
    if OwnedBy(s.records, KeyOf(s.callers[id].cmd), s.callers[id].token.value) {
      CloseMatchedKeepsInv(s, id, lost);
    } else {
      CloseMissedKeepsInv(s, id, Apply(s, CloseFailed(id, lost)).callers[id]);
    }
  }

  // ----- steps that only move one call -----

  /** Throwing out of the transaction, or out of the try block before it. */
  lemma RollBackCallerOk(s: State, c: Caller, cause: Error)
    requires CallerOk(s, c)
    requires BeforeTransaction(c.phase) || InTransaction(c.phase)
    requires !Unreached(cause) && cause != RequestInProgress
    ensures CallerOk(s, RollBack(c, cause))
  {
  }

  lemma ThrowKeepsInv(s: State, id: nat, cause: Error)
    requires Inv(s) && id in s.callers
    requires BeforeTransaction(s.callers[id].phase) || InTransaction(s.callers[id].phase)
    requires !Unreached(cause) && cause != RequestInProgress
    ensures Inv(Throw(s, id, cause))
  {
    MoveKeepsInv(s, id, RollBack(s.callers[id], cause)) by {
      assert CallerOk(s, s.callers[id]);
      RollBackCallerOk(s, s.callers[id], cause);
    }
  }

  /** Replacing one call by a sound successor, with no lock gained that another call holds. */
  lemma MoveKeepsInv(s: State, id: nat, c': Caller)
    requires Inv(s) && id in s.callers
    requires CallerOk(s, c') && SameClaims(s.callers[id], c') && c'.event == s.callers[id].event
    requires c'.paymentLock ==> s.callers[id].paymentLock || PaymentFree(s, id, s.callers[id].resourceId)
    ensures Inv(Put(s, id, c'))
  {
    CallerKept(s, Put(s, id, c'), c');
    LocalKeepsInv(s, Put(s, id, c'), id);
  }

  lemma InsertedCallerOk(s: State, c: Caller, row: Payment)
    requires CallerOk(s, c) && c.phase.InsertingPayment? && c.txn == Open && c.cmd.CreateCommand?
    requires exists createdAt ::
      row == AuthorizationRow(c.resourceId, c.cmd.merchantId, c.cmd.amountMinor, c.cmd.currency,
                              c.phase.result, c.phase.at, createdAt)
    requires c.resourceId !in s.payments
    ensures CallerOk(s, c.(phase := RecordingEvent, paymentLock := true, row := Some(row)))
  {
  }

  lemma InsertPaymentKeepsInv(s: State, id: nat, createdAt: Time)
    requires Inv(s) && Enabled(s, InsertPayment(id, createdAt))
    ensures Inv(Apply(s, InsertPayment(id, createdAt)))
  {
    var s' := Apply(s, InsertPayment(id, createdAt));
    var c := s.callers[id];
    assert CallerOk(s, c);
    if c.resourceId in s.payments {
      ThrowKeepsInv(s, id, UniqueViolation);
    } else {
      InsertedCallerOk(s, c, s'.callers[id].row.value);
      MoveKeepsInv(s, id, s'.callers[id]);
    }
  }

  lemma LockedCallerOk(s: State, c: Caller)
    requires CallerOk(s, c) && c.phase == LockingPayment && c.txn == Open && c.resourceId in s.payments
    requires s.payments[c.resourceId].id == c.resourceId && WellShaped(s.payments[c.resourceId])
    ensures var c' := c.(phase := Checking, paymentLock := true, row := Some(s.payments[c.resourceId]));
            CallerOk(s, c') && SameClaims(c, c') && c'.event == c.event
  {
  }

  lemma LockPaymentKeepsInv(s: State, id: nat)
    requires Inv(s) && Enabled(s, LockPayment(id))
    ensures Inv(Apply(s, LockPayment(id)))
  {
    var c := s.callers[id];
    assert CallerOk(s, c);
    if c.resourceId !in s.payments {
      ThrowKeepsInv(s, id, PaymentNotFound);
    } else {
      LockedCallerOk(s, c);
      MoveKeepsInv(s, id, c.(phase := Checking, paymentLock := true, row := Some(s.payments[c.resourceId])));
    }
  }

  lemma UpdatedCallerOk(s: State, c: Caller)
    requires CallerOk(s, c) && c.phase.UpdatingPayment? && c.txn == Open
    ensures var updated := UpdateIfAuthorized(s.payments, c.resourceId, c.phase.captureResult, c.phase.at).1;
            var c' := c.(phase := RecordingEvent, row := updated);
            updated.Some? && CallerOk(s, c') && Move(c, c')
  {
  }

  lemma UpdatePaymentKeepsInv(s: State, id: nat)
    requires Inv(s) && Enabled(s, UpdatePayment(id))
    ensures Inv(Apply(s, UpdatePayment(id)))
  {
    var c := s.callers[id];
    UpdatedCallerOk(s, c);
    MoveKeepsInv(s, id, Apply(s, UpdatePayment(id)).callers[id]);
  }

  lemma RecordedCallerOk(s: State, s': State, c: Caller, at: Time)
    requires CallerOk(s, c) && c.phase.RecordingEvent? && c.txn == Open
    requires SameTables(s, s')
    requires RecordEvent(OperationOf(c.cmd), s.nextId, c.cmd.correlationId, c.row.value, at).Success?
    ensures var event := RecordEvent(OperationOf(c.cmd), s.nextId, c.cmd.correlationId, c.row.value, at).value;
            var c' := c.(phase := Completing, event := Some(event));
            && event.eventId == s.nextId
            && CallerOk(s', c') && SameClaims(c, c')
  {
    RecordedIffShaped(OperationOf(c.cmd), s.nextId, c.cmd.correlationId, c.row.value, at);
    RecordedEventDescribesRow(OperationOf(c.cmd), s.nextId, c.cmd.correlationId, c.row.value, at);
  }

  lemma RecordOutboxKeepsInv(s: State, id: nat, at: Time)
    requires Inv(s) && Enabled(s, RecordOutbox(id, at))
    ensures Inv(Apply(s, RecordOutbox(id, at)))
  {
    var s' := Apply(s, RecordOutbox(id, at));
    var c := s.callers[id];
    assert CallerOk(s, c);
    var recorded := RecordEvent(OperationOf(c.cmd), s.nextId, c.cmd.correlationId, c.row.value, at);
    if recorded.Failure? {
      ThrowKeepsInv(s, id, EventRejected(recorded.error));
    } else {
      RecordedCallerOk(s, s', c, at);
      BufferedKeepsInv(s, s', id);
    }
  }

  /** A call that has buffered a fresh event. */
  lemma BufferedKeepsInv(s: State, s': State, id: nat)
    requires Inv(s) && id in s.callers && id in s'.callers
    requires s' == Put(s, id, s'.callers[id]).(nextId := s.nextId + 1)
    requires CallerOk(s', s'.callers[id]) && SameClaims(s.callers[id], s'.callers[id])
    requires s'.callers[id].paymentLock == s.callers[id].paymentLock
    requires s'.callers[id].txn == Open
    requires s'.callers[id].event.Some? && s'.callers[id].event.value.eventId == s.nextId
    ensures Inv(s')
  {
    LocalKeepsInv(s, s', id);
  }

  lemma CompletedCallerOk(s: State, c: Caller)
    requires CallerOk(s, c) && c.phase == Completing && c.txn == Open && c.row.Some? && c.token.Some?
    requires OwnedBy(s.records, KeyOf(c.cmd), c.token.value)
    ensures CallerOk(s, c.(phase := ReadyToCommit, recordLock := true,
                           record := MarkCompleted(s.records, KeyOf(c.cmd), c.token.value, c.row.value.id, ReplyOf(c)).1))
  {
  }

  lemma CompleteKeepsInv(s: State, id: nat)
    requires Inv(s) && Enabled(s, Complete(id))
    ensures Inv(Apply(s, Complete(id)))
  {
    var s' := Apply(s, Complete(id));
    var c := s.callers[id];
    assert CallerOk(s, c);
    if !OwnedBy(s.records, KeyOf(c.cmd), c.token.value) {
      ThrowKeepsInv(s, id, OwnershipLost);
    } else {
      CompletedCallerOk(s, c);
      MoveKeepsInv(s, id, s'.callers[id]);
    }
  }

  lemma AcquireFailsMoves(s: State, c: Caller)
    requires CallerOk(s, c) && Acquiring(c.phase)
    ensures var c' := c.(phase := Done(Err(DatabaseError))); CallerOk(s, c') && Move(c, c')
  {
  }

  lemma AnswerMoves(s: State, c: Caller, result: AuthorizeResult, at: Time)
    requires CallerOk(s, c) && c.phase.InAuthorize?
    ensures var c' := c.(phase := Answered(result, at)); CallerOk(s, c') && Move(c, c')
  {
  }

  lemma BeginMoves(s: State, c: Caller)
    requires CallerOk(s, c) && (c.phase.Answered? || c.phase.ReadyToCapture?)
    ensures var c' := c.(txn := Open, phase := if c.phase.Answered? then InsertingPayment(c.phase.result, c.phase.at)
                                              else LockingPayment);
            CallerOk(s, c') && Move(c, c')
  {
  }

  lemma CaptureAnswerMoves(s: State, c: Caller, result: CaptureResult, at: Time)
    requires CallerOk(s, c) && c.phase.InCapture?
    ensures var c' := c.(phase := UpdatingPayment(result, at)); CallerOk(s, c') && Move(c, c')
  {
  }

  lemma SendCommitMoves(s: State, c: Caller)
    requires CallerOk(s, c) && c.phase.ReadyToCommit? && c.txn == Open
    ensures var c' := c.(phase := AwaitingCommit, txn := Committing); CallerOk(s, c') && Move(c, c')
  {
  }

  lemma DbAbortMoves(s: State, c: Caller)
    requires CallerOk(s, c) && (c.txn == Open || c.txn == Committing)
    ensures var c' := c.(txn := Aborted, paymentLock := false, recordLock := false); CallerOk(s, c') && Move(c, c')
  {
  }

  lemma AcknowledgedMoves(s: State, c: Caller)
    requires CallerOk(s, c) && c.phase.AwaitingCommit? && c.txn == Committed && c.row.Some?
    ensures var c' := c.(phase := Done(Ok(ReplyOf(c)))); CallerOk(s, c') && Move(c, c')
  {
  }

  lemma CommitFailsMoves(s: State, c: Caller)
    requires CallerOk(s, c) && c.phase.AwaitingCommit?
    ensures var c' := c.(phase := Closing(DatabaseError)); CallerOk(s, c') && Move(c, c')
  {
    var c' := c.(phase := Closing(DatabaseError));
    assert ControlOk(c') && WritesOk(c');
    assert PaymentLockOk(s, c') && RecordLockOk(s, c');
  }

  lemma CrashMoves(s: State, c: Caller)
    requires CallerOk(s, c) && !c.phase.Done?
    ensures var c' := c.(phase := Crashed); CallerOk(s, c') && Move(c, c')
  {
  }

  predicate Finishing(step: Step) {
    step.SendCommit? || step.DbAbort? || step.CommitAcknowledged? || step.CommitFails? || step.Crash?
  }

  lemma FinishingMoves(s: State, step: Step) returns (c': Caller)
    requires Enabled(s, step) && Finishing(step)
    requires CallerOk(s, s.callers[step.id])
    ensures Apply(s, step) == Put(s, step.id, c')
    ensures CallerOk(s, c') && Move(s.callers[step.id], c')
  {
    var c := s.callers[step.id];
    match step
    case SendCommit(id) =>
      SendCommitMoves(s, c);
      c' := c.(phase := AwaitingCommit, txn := Committing);
    case DbAbort(id) =>
      DbAbortMoves(s, c);
      c' := c.(txn := Aborted, paymentLock := false, recordLock := false);
    case CommitAcknowledged(id) =>
      AcknowledgedMoves(s, c);
      c' := c.(phase := Done(Ok(ReplyOf(c))));
    case CommitFails(id) =>
      CommitFailsMoves(s, c);
      c' := c.(phase := Closing(DatabaseError));
    case Crash(id) =>
      CrashMoves(s, c);
      c' := c.(phase := Crashed);
  }

  lemma ProceedingMoves(s: State, step: Step) returns (c': Caller)
    requires Enabled(s, step) && Plain(step) && !Finishing(step)
    requires CallerOk(s, s.callers[step.id])
    ensures Apply(s, step) == Put(s, step.id, c')
    ensures CallerOk(s, c') && Move(s.callers[step.id], c')
  {
    var c := s.callers[step.id];
    match step
    case AcquireFails(id) =>
      AcquireFailsMoves(s, c);
      c' := c.(phase := Done(Err(DatabaseError)));
    case AuthorizeReturns(id, result, at) =>
      AnswerMoves(s, c, result, at);
      c' := c.(phase := Answered(result, at));
    case Begin(id) =>
      BeginMoves(s, c);
      c' := DoBegin(s, id).callers[id];
    case CaptureReturns(id, result, at) =>
      CaptureAnswerMoves(s, c, result, at);
      c' := c.(phase := UpdatingPayment(result, at));
  }

  /** The call after a plain step. */
  lemma PlainMoves(s: State, step: Step) returns (c': Caller)
    requires Enabled(s, step) && Plain(step)
    requires CallerOk(s, s.callers[step.id])
    ensures Apply(s, step) == Put(s, step.id, c')
    ensures CallerOk(s, c') && Move(s.callers[step.id], c')
  {
    if Finishing(step) { c' := FinishingMoves(s, step); } else { c' := ProceedingMoves(s, step); }
  }

  lemma PlainKeepsInv(s: State, step: Step)
    requires Inv(s) && Enabled(s, step) && Plain(step)
    ensures Inv(Apply(s, step))
  {
    var c' := PlainMoves(s, step);
    MoveKeepsInv(s, step.id, c');
  }

  predicate Plain(step: Step) {
    step.AcquireFails? || step.AuthorizeReturns? || step.Begin? || step.CaptureReturns? || step.SendCommit?
    || step.DbAbort? || step.CommitAcknowledged? || step.CommitFails? || step.Crash?
  }

  lemma ThrowStepKeepsInv(s: State, step: Step)
    requires Inv(s) && Enabled(s, step)
    requires step.AuthorizeThrows? || step.BeginFails? || step.CaptureThrows? || step.StatementFails?
    ensures Inv(Apply(s, step))
  {
    ThrowKeepsInv(s, step.id, if step.AuthorizeThrows? || step.CaptureThrows? then ProviderThrew else DatabaseError);
  }

  // ----- steps that call the provider -----

  /** Appending one sound call, made by a call that had not captured before, keeps the log sound. */
  lemma LogGrows(s: State, s': State, call: Call)
    requires LogOk(s) && s'.log == s.log + [call]
    requires forall i :: 0 <= i < |s.log| ==> CallOk(s', s.log[i])
    requires CallOk(s', call)
    requires call.CaptureCall? ==> forall i :: 0 <= i < |s.log| && s.log[i].CaptureCall? ==> s.log[i].caller != call.caller
    ensures LogOk(s')
  {
    forall i | 0 <= i < |s'.log| ensures CallOk(s', s'.log[i]) {
      if i < |s.log| { assert s'.log[i] == s.log[i]; }
    }
  }

  lemma CallAuthorizeMoves(s: State, id: nat)
    requires Enabled(s, CallAuthorize(id)) && CallerOk(s, s.callers[id])
    requires RecordOk(s, KeyOf(s.callers[id].cmd), s.records[KeyOf(s.callers[id].cmd)])
    ensures var c' := s.callers[id].(phase := InAuthorize);
            var call := Apply(s, CallAuthorize(id)).log[|s.log|];
            && CallerOk(s, c') && Move(s.callers[id], c') && call.AuthorizeCall?
            && CallOk(Put(s, id, c'), call)
            && Apply(s, CallAuthorize(id)) == Put(s, id, c').(log := s.log + [call])
  {
  }

  lemma CallAuthorizeKeepsInv(s: State, id: nat)
    requires Inv(s) && Enabled(s, CallAuthorize(id))
    ensures Inv(Apply(s, CallAuthorize(id)))
  {
    var c' := s.callers[id].(phase := InAuthorize);
    assert CallerOk(s, s.callers[id]);
    assert RecordOk(s, KeyOf(c'.cmd), s.records[KeyOf(c'.cmd)]);
    CallAuthorizeMoves(s, id);
    MoveKeepsInv(s, id, c');
    QuietKeepsInv(Put(s, id, c'), Apply(s, CallAuthorize(id)), Apply(s, CallAuthorize(id)).log[|s.log|]);
  }

  lemma CallCaptureMoves(s: State, id: nat)
    requires Enabled(s, CallCapture(id, true)) && CallerOk(s, s.callers[id])
    requires s.callers[id].row.value.status == Payments.Authorized
    ensures var c' := s.callers[id].(phase := InCapture);
            && CallerOk(s, c') && Move(s.callers[id], c')
            && |Apply(s, CallCapture(id, true)).log| == |s.log| + 1
            && var call := Apply(s, CallCapture(id, true)).log[|s.log|];
               && call.CaptureCall? && call.caller == id
               && CallOk(Put(s, id, c'), call)
               && Apply(s, CallCapture(id, true)) == Put(s, id, c').(log := s.log + [call])
  {
  }

  /** A call that has yet to capture is not in the log as a captor. */
  lemma NotYetCaptor(s: State, id: nat)
    requires LogOk(s) && id in s.callers && BeforeCapture(s.callers[id].phase)
    ensures forall i :: 0 <= i < |s.log| && s.log[i].CaptureCall? ==> s.log[i].caller != id
  {
    forall i | 0 <= i < |s.log| && s.log[i].CaptureCall? ensures s.log[i].caller != id {
      assert CallOk(s, s.log[i]);
    }
  }

  lemma CaptureCalledKeepsInv(s: State, id: nat)
    requires Inv(s) && Enabled(s, CallCapture(id, true))
    requires s.callers[id].row.value.status == Payments.Authorized
    ensures Inv(Apply(s, CallCapture(id, true)))
  {
    var c' := s.callers[id].(phase := InCapture);
    assert CallerOk(s, s.callers[id]);
    CallCaptureMoves(s, id);
    NotYetCaptor(s, id);
    MoveKeepsInv(s, id, c');
    QuietKeepsInv(Put(s, id, c'), Apply(s, CallCapture(id, true)), Apply(s, CallCapture(id, true)).log[|s.log|]);
  }

  lemma CallCaptureKeepsInv(s: State, id: nat, configured: bool)
    requires Inv(s) && Enabled(s, CallCapture(id, configured))
    ensures Inv(Apply(s, CallCapture(id, configured)))
  {
    if s.callers[id].row.value.status != Payments.Authorized {
      ThrowKeepsInv(s, id, PaymentNotCapturable);
    } else if !configured {
      ThrowKeepsInv(s, id, ProviderNotConfigured);
    } else {
      CaptureCalledKeepsInv(s, id);
    }
  }

  /** The log is read by nothing but its own clause. */
  lemma QuietKeepsInv(quiet: State, s': State, call: Call)
    requires Inv(quiet) && s' == quiet.(log := quiet.log + [call])
    requires CallOk(quiet, call)
    requires call.CaptureCall? ==>
      forall i :: 0 <= i < |quiet.log| && quiet.log[i].CaptureCall? ==> quiet.log[i].caller != call.caller
    ensures Inv(s')
  {
    forall d | d in s'.callers ensures CallerOk(s', s'.callers[d]) { CallerKept(quiet, s', quiet.callers[d]); }
    forall k | k in s'.records ensures RecordOk(s', k, s'.records[k]) { assert RecordOk(quiet, k, quiet.records[k]); }
    forall p ensures PaymentHistoryOk(s', p) { assert PaymentHistoryOk(quiet, p); }
    forall k ensures RecordHistoryOk(s', k) { assert RecordHistoryOk(quiet, k); }
    forall e ensures EventHistoryOk(s', e) { assert EventHistoryOk(quiet, e); }
    forall i ensures CommitKnown(s', i) { assert CommitKnown(quiet, i); }
    forall i | i in s'.callers ensures EventIdOk(s', s'.callers[i]) { assert EventIdOk(quiet, quiet.callers[i]); }
    forall i | 0 <= i < |quiet.log| ensures CallOk(s', quiet.log[i]) { assert CallOk(quiet, quiet.log[i]); }
    LogGrows(quiet, s', call);
  }
}
