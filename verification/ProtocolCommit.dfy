/** The commit step: three tables change at once, and the invariant survives. */
module ProtocolCommit {
  import opened Payments
  import opened IdempotencyRecords
  import opened Protocol
  import opened ProtocolInvariant
  import opened ProtocolFrames

  /** What a committing transaction installs, and what its locks say about the tables it installs it into. */
  ghost predicate Installs(s: State, s': State, id: nat) {
    && id in s.callers
    && var c := s.callers[id];
       var k := KeyOf(c.cmd);
       var p := c.resourceId;
       && RecordWritten(c)
       && c.txn == Committing && c.paymentLock && c.recordLock
       && OwnerOk(s, c) && PaymentLockOk(s, c) && RecordLockOk(s, c) && ValidCommand(c.cmd)
       && c.event.value.eventId < s.nextId && c.event.value.eventId !in s.events
       && s'.payments == s.payments[p := c.row.value]
       && s'.records == s.records[k := c.record.value]
       && s'.events == s.events[c.event.value.eventId := c.event.value]
       && s'.callers == s.callers[id := c.(txn := Committed, paymentLock := false, recordLock := false)]
       && s'.nextId == s.nextId && s'.log == s.log
       && s'.history.authorizedBy == (if c.cmd.CreateCommand? then s.history.authorizedBy[p := id] else s.history.authorizedBy)
       && s'.history.capturedBy == (if c.cmd.CaptureCommand? then s.history.capturedBy[p := id] else s.history.capturedBy)
       && s'.history.completedBy == s.history.completedBy[k := id]
       && s'.history.recordedBy == s.history.recordedBy[c.event.value.eventId := id]
  }

  lemma DbCommitInstalls(s: State, id: nat)
    requires Enabled(s, DbCommit(id))
    requires CallerOk(s, s.callers[id]) && EventIdOk(s, s.callers[id])
    ensures Installs(s, Apply(s, DbCommit(id)), id)
  {
  }

  /** Another call's locked rows are not the ones installed: its payment differs, and so does its token. */
  lemma CommitUndisturbs(s: State, s': State, id: nat, d: Caller)
    requires Installs(s, s', id)
    requires CallerOk(s, d) && Apart(s.callers[id], d)
    ensures Undisturbed(s, s', d)
  {
  }

  lemma CommittedCallerOk(s: State, s': State, id: nat)
    requires Installs(s, s', id)
    requires CallerOk(s, s.callers[id])
    ensures CallerOk(s', s'.callers[id])
  {
  }

  lemma CommitKeepsPairs(s: State, s': State, id: nat)
    requires PairsOk(s) && Installs(s, s', id)
    ensures PairsOk(s')
  {
    forall i, j | i in s'.callers && j in s'.callers && i != j ensures Apart(s'.callers[i], s'.callers[j]) {
      assert Apart(s.callers[i], s.callers[j]);
    }
  }

  lemma CommitKeepsRecords(s: State, s': State, id: nat)
    requires RecordsOk(s) && ReservationsOk(s) && Installs(s, s', id)
    ensures RecordsOk(s') && ReservationsOk(s')
  {
    var k := KeyOf(s.callers[id].cmd);
    forall l | l in s'.records ensures RecordOk(s', l, s'.records[l]) {
      assert RecordOk(s, l, s.records[l]);
    }
  }

  lemma CommitKeepsPayments(s: State, s': State, id: nat)
    requires PaymentsOk(s) && Installs(s, s', id)
    ensures PaymentsOk(s')
  {
  }

  /** A payment with a capture on record is no longer AUTHORIZED. */
  lemma CapturedIsNotAuthorized(s: State, p: Id)
    requires CallersOk(s) && PaymentHistoryOk(s, p)
    requires p in s.history.capturedBy
    ensures p in s.payments && s.payments[p].status != Payments.Authorized
  {
    assert CallerOk(s, s.callers[s.history.capturedBy[p]]);
  }

  /** Another payment: its rows and its entries stay. */
  lemma CommitKeepsOtherPayment(s: State, s': State, id: nat, p: Id)
    requires Installs(s, s', id) && p != s.callers[id].resourceId
    requires PaymentHistoryOk(s, p)
    ensures PaymentHistoryOk(s', p)
  {
  }

  lemma CommitRecordsCreate(s: State, s': State, id: nat)
    requires Installs(s, s', id) && s.callers[id].cmd.CreateCommand?
    requires PaymentHistoryOk(s, s.callers[id].resourceId)
    ensures PaymentHistoryOk(s', s.callers[id].resourceId)
  {
  }

  lemma CommitRecordsCapture(s: State, s': State, id: nat)
    requires Installs(s, s', id) && s.callers[id].cmd.CaptureCommand?
    requires PaymentHistoryOk(s, s.callers[id].resourceId) && s.callers[id].resourceId !in s.history.capturedBy
    ensures PaymentHistoryOk(s', s.callers[id].resourceId)
  {
  }

  lemma CommitKeepsPaymentHistory(s: State, s': State, id: nat, p: Id)
    requires CallersOk(s) && Installs(s, s', id)
    requires PaymentHistoryOk(s, p)
    ensures PaymentHistoryOk(s', p)
  {
    if p != s.callers[id].resourceId {
      CommitKeepsOtherPayment(s, s', id, p);
    } else if s.callers[id].cmd.CreateCommand? {
      CommitRecordsCreate(s, s', id);
    } else {
      NotYetCaptured(s, id);
      CommitRecordsCapture(s, s', id);
    }
  }

  /** A committing capture holds its payment AUTHORIZED, so no capture of it is on record. */
  lemma NotYetCaptured(s: State, id: nat)
    requires CallersOk(s) && id in s.callers && s.callers[id].cmd.CaptureCommand?
    requires s.callers[id].txn == Committing && s.callers[id].paymentLock && PaymentLockOk(s, s.callers[id])
    requires PaymentHistoryOk(s, s.callers[id].resourceId)
    ensures s.callers[id].resourceId !in s.history.capturedBy
  {
    if s.callers[id].resourceId in s.history.capturedBy { CapturedIsNotAuthorized(s, s.callers[id].resourceId); }
  }

  lemma CommitKeepsRecordHistory(s: State, s': State, id: nat, k: RecordKey)
    requires Installs(s, s', id)
    requires RecordHistoryOk(s, k)
    ensures RecordHistoryOk(s', k)
  {
  }

  lemma CommitKeepsEventHistory(s: State, s': State, id: nat, e: Id)
    requires Installs(s, s', id)
    requires EventHistoryOk(s, e)
    ensures EventHistoryOk(s', e)
  {
  }

  lemma CommitIsKnown(s: State, s': State, id: nat)
    requires Installs(s, s', id)
    ensures CommitKnown(s', id)
  {
  }

  /** What is on record for an earlier commit is not overwritten: payment, key and event are its own. */
  lemma EarlierStaysKnown(s: State, s': State, id: nat, i: nat)
    requires Installs(s, s', id) && i != id && CommitKnown(s, i)
    requires s.callers[id].cmd.CreateCommand? ==> s.callers[id].resourceId !in s.history.authorizedBy
    requires s.callers[id].cmd.CaptureCommand? ==> s.callers[id].resourceId !in s.history.capturedBy
    requires KeyOf(s.callers[id].cmd) !in s.history.completedBy
    requires s.callers[id].event.value.eventId !in s.history.recordedBy
    ensures CommitKnown(s', i)
  {
  }

  lemma CommitKeepsKnown(s: State, s': State, id: nat, i: nat)
    requires CallersOk(s) && HistoryOk(s) && Installs(s, s', id)
    ensures CommitKnown(s', i)
  {
    var c := s.callers[id];
    assert CommitKnown(s, i) && PaymentHistoryOk(s, c.resourceId);
    assert RecordHistoryOk(s, KeyOf(c.cmd)) && EventHistoryOk(s, c.event.value.eventId);
    if i == id {
      CommitIsKnown(s, s', id);
    } else {
      if c.cmd.CaptureCommand? { NotYetCaptured(s, id); }
      EarlierStaysKnown(s, s', id, i);
    }
  }

  lemma CommitKeepsHistory(s: State, s': State, id: nat)
    requires CallersOk(s) && HistoryOk(s) && Installs(s, s', id)
    ensures HistoryOk(s')
  {
    forall p ensures PaymentHistoryOk(s', p) { CommitKeepsPaymentHistory(s, s', id, p); }
    forall k ensures RecordHistoryOk(s', k) { CommitKeepsRecordHistory(s, s', id, k); }
    forall e ensures EventHistoryOk(s', e) { CommitKeepsEventHistory(s, s', id, e); }
    forall i ensures CommitKnown(s', i) { CommitKeepsKnown(s, s', id, i); }
  }

  lemma CommitKeepsEventIds(s: State, s': State, id: nat)
    requires EventIdsOk(s) && Installs(s, s', id)
    ensures EventIdsOk(s')
  {
    forall i | i in s'.callers ensures EventIdOk(s', s'.callers[i]) {
      assert EventIdOk(s, s.callers[i]);
      if i != id { assert EventsApart(s.callers[i], s.callers[id]); }
    }
    forall i, j | i in s'.callers && j in s'.callers && i != j ensures EventsApart(s'.callers[i], s'.callers[j]) {
      assert EventsApart(s.callers[i], s.callers[j]);
    }
  }

  lemma CommitKeepsLog(s: State, s': State, id: nat)
    requires LogOk(s) && Installs(s, s', id)
    ensures LogOk(s')
  {
    forall i | 0 <= i < |s'.log| ensures CallOk(s', s'.log[i]) {
      assert CallOk(s, s.log[i]);
    }
  }

  lemma CommitKeepsCallers(s: State, s': State, id: nat)
    requires CallersOk(s) && PairsOk(s) && Installs(s, s', id)
    ensures CallersOk(s')
  {
    forall d | d in s.callers && d != id ensures Undisturbed(s, s', s.callers[d]) {
      assert CallerOk(s, s.callers[d]) && Apart(s.callers[id], s.callers[d]);
      CommitUndisturbs(s, s', id, s.callers[d]);
    }
    CommittedCallerOk(s, s', id);
    OthersKept(s, s', id);
  }

  lemma DbCommitKeepsInv(s: State, id: nat)
    requires Inv(s) && Enabled(s, DbCommit(id))
    ensures Inv(Apply(s, DbCommit(id)))
  {
    var s' := Apply(s, DbCommit(id));
    DbCommitInstalls(s, id);
    CommitKeepsCallers(s, s', id);
    CommitKeepsPairs(s, s', id);
    CommitKeepsRecords(s, s', id);
    CommitKeepsPayments(s, s', id);
    CommitKeepsHistory(s, s', id);
    CommitKeepsEventIds(s, s', id);
    CommitKeepsLog(s, s', id);
  }
}
