/** How far one call's step can disturb another, and the shapes of step the preservation proof is made of. */
module ProtocolFrames {
  import opened Payments
  import opened IdempotencyRecords
  import opened Protocol
  import opened ProtocolInvariant

  /** What every step guarantees the other calls about the tables they rely on. */
  predicate Undisturbed(s: State, s': State, c: Caller) {
    var k := KeyOf(c.cmd);
    var p := c.resourceId;
    && s.nextId <= s'.nextId
    && (k in s.records ==>
          && k in s'.records
          && s'.records[k].requestHash == s.records[k].requestHash
          && s'.records[k].resourceId == s.records[k].resourceId
          && (s.records[k].status == Completed || c.recordLock ==> s'.records[k] == s.records[k]))
    && (p in s.payments ==> p in s'.payments && SameIdentity(s.payments[p], s'.payments[p]))
    && (c.paymentLock ==> (p in s'.payments ==> p in s.payments && s'.payments[p] == s.payments[p]))
  }

  lemma CallerKept(s: State, s': State, c: Caller)
    requires CallerOk(s, c)
    requires Undisturbed(s, s', c)
    ensures CallerOk(s', c)
  {
  }

  /** A step of call `id` that touches no table, no log and no bookkeeping. */
  ghost predicate LocalChange(s: State, s': State, id: nat) {
    && id in s.callers && id in s'.callers
    && s'.callers == s.callers[id := s'.callers[id]]
    && s'.records == s.records && s'.payments == s.payments && s'.events == s.events
    && s'.log == s.log && s'.history == s.history
    && s.nextId <= s'.nextId
    && SameClaims(s.callers[id], s'.callers[id])
  }

  /** Nothing the bookkeeping or the log says about the call is given up. */
  predicate SameClaims(c: Caller, c': Caller) {
    && c'.cmd == c.cmd
    && c'.token == c.token
    && c'.resourceId == c.resourceId
    && (c'.txn == Committed <==> c.txn == Committed)
    && (c.txn == Committed ==> c'.row == c.row && c'.event == c.event && c'.record == c.record)
    && (!BeforeCapture(c.phase) ==> !BeforeCapture(c'.phase))
  }

  predicate SameEvent(s: State, s': State, c: Caller, c': Caller) {
    || c'.event == c.event
    || (c'.event.Some? && s.nextId <= c'.event.value.eventId < s'.nextId && c'.txn != Committed)
  }

  lemma LocalKeepsPairs(s: State, s': State, id: nat)
    requires PairsOk(s) && LocalChange(s, s', id)
    requires s'.callers[id].paymentLock ==> s.callers[id].paymentLock || PaymentFree(s, id, s.callers[id].resourceId)
    ensures PairsOk(s')
  {
    forall i, j | i in s'.callers && j in s'.callers && i != j ensures Apart(s'.callers[i], s'.callers[j]) {
      assert Apart(s.callers[i], s.callers[j]);
    }
  }

  lemma LocalKeepsHistory(s: State, s': State, id: nat)
    requires HistoryOk(s) && LocalChange(s, s', id)
    ensures HistoryOk(s')
  {
    forall p ensures PaymentHistoryOk(s', p) { assert PaymentHistoryOk(s, p); }
    forall k ensures RecordHistoryOk(s', k) { assert RecordHistoryOk(s, k); }
    forall e ensures EventHistoryOk(s', e) { assert EventHistoryOk(s, e); }
    forall i ensures CommitKnown(s', i) { assert CommitKnown(s, i); }
  }

  lemma LocalKeepsEventIds(s: State, s': State, id: nat)
    requires EventIdsOk(s) && HistoryOk(s) && LocalChange(s, s', id)
    requires SameEvent(s, s', s.callers[id], s'.callers[id])
    ensures EventIdsOk(s')
  {
    forall i | i in s'.callers ensures EventIdOk(s', s'.callers[i]) {
      assert EventIdOk(s, s.callers[i]);
      if i == id && s'.callers[i].event != s.callers[i].event {
        assert EventHistoryOk(s, s'.callers[i].event.value.eventId);
      }
    }
    forall i, j | i in s'.callers && j in s'.callers && i != j ensures EventsApart(s'.callers[i], s'.callers[j]) {
      assert EventsApart(s.callers[i], s.callers[j]);
      assert EventIdOk(s, s.callers[i]) && EventIdOk(s, s.callers[j]);
    }
  }

  lemma LocalKeepsLog(s: State, s': State, id: nat)
    requires LogOk(s) && LocalChange(s, s', id)
    ensures LogOk(s')
  {
    forall i | 0 <= i < |s'.log| ensures CallOk(s', s'.log[i]) {
      assert CallOk(s, s.log[i]);
    }
  }

  lemma LocalKeepsTables(s: State, s': State, id: nat)
    requires RecordsOk(s) && ReservationsOk(s) && PaymentsOk(s) && LocalChange(s, s', id)
    ensures RecordsOk(s') && ReservationsOk(s') && PaymentsOk(s')
  {
    forall k | k in s'.records ensures RecordOk(s', k, s'.records[k]) {
      assert RecordOk(s, k, s.records[k]);
    }
  }

  lemma OthersKept(s: State, s': State, id: nat)
    requires CallersOk(s)
    requires id in s'.callers
    requires s'.callers == s.callers[id := s'.callers[id]]
    requires forall d :: d in s.callers && d != id ==> Undisturbed(s, s', s.callers[d])
    requires CallerOk(s', s'.callers[id])
    ensures CallersOk(s')
  {
    forall d | d in s'.callers ensures CallerOk(s', s'.callers[d]) {
      if d != id {
        CallerKept(s, s', s.callers[d]);
      }
    }
  }

  predicate SameTables(s: State, s': State) {
    s'.records == s.records && s'.payments == s.payments && s.nextId <= s'.nextId
  }

  lemma LocalKeepsInv(s: State, s': State, id: nat)
    requires Inv(s) && LocalChange(s, s', id)
    requires CallerOk(s', s'.callers[id])
    requires s'.callers[id].paymentLock ==> s.callers[id].paymentLock || PaymentFree(s, id, s.callers[id].resourceId)
    requires SameEvent(s, s', s.callers[id], s'.callers[id])
    ensures Inv(s')
  {
    OthersKept(s, s', id);
    LocalKeepsPairs(s, s', id);
    LocalKeepsTables(s, s', id);
    LocalKeepsHistory(s, s', id);
    LocalKeepsEventIds(s, s', id);
    LocalKeepsLog(s, s', id);
  }

  // ----- a step that writes one idempotency row, not completing it -----

  /** The row at `k` becomes `r`: new, or the same request under the same or a fresh token. */
  ghost predicate RecordChange(s: State, s': State, id: nat, k: RecordKey, r: Record) {
    && id in s.callers && id in s'.callers
    && s'.callers == s.callers[id := s'.callers[id]]
    && s'.records == s.records[k := r]
    && s'.payments == s.payments && s'.events == s.events
    && s'.log == s.log && s'.history == s.history
    && s.nextId <= s'.nextId
    && k == KeyOf(s.callers[id].cmd)
    && r.status != Completed
    && RecordOk(s', k, r)
    && RecordFree(s, k)
    && (k in s.records ==>
          && s.records[k].status != Completed
          && r.requestHash == s.records[k].requestHash
          && r.resourceId == s.records[k].resourceId)
    && (k !in s.records && k.scope.CreateScope? ==> s.nextId <= r.resourceId)
    && Reclaimed(s, s', s.callers[id], s'.callers[id])
  }

  /** The call keeps its identity and commits nothing; any token it gains is fresh. */
  predicate Reclaimed(s: State, s': State, c: Caller, c': Caller) {
    && c'.cmd == c.cmd
    && (c'.txn == Committed <==> c.txn == Committed)
    && (c.txn == Committed ==> c'.row == c.row && c'.event == c.event && c'.record == c.record
                               && c'.resourceId == c.resourceId)
    && c'.event == c.event
    && c'.paymentLock == c.paymentLock
    && (c.paymentLock ==> c'.resourceId == c.resourceId)
    && (!BeforeCapture(c.phase) ==> !BeforeCapture(c'.phase))
    && (c'.token == c.token || (c'.token.Some? && s.nextId <= c'.token.value < s'.nextId))
  }

  lemma RecordChangeKeepsTables(s: State, s': State, id: nat, k: RecordKey, r: Record)
    requires RecordsOk(s) && ReservationsOk(s) && PaymentsOk(s) && RecordChange(s, s', id, k, r)
    ensures RecordsOk(s') && ReservationsOk(s') && PaymentsOk(s')
  {
    forall l | l in s'.records ensures RecordOk(s', l, s'.records[l]) {
      if l != k { assert RecordOk(s, l, s.records[l]); }
    }
    forall a, b | a in s'.records && b in s'.records && a != b && a.scope.CreateScope? && b.scope.CreateScope?
      ensures s'.records[a].resourceId != s'.records[b].resourceId
    {
      if a in s.records { assert RecordOk(s, a, s.records[a]); }
      if b in s.records { assert RecordOk(s, b, s.records[b]); }
    }
  }

  lemma RecordChangeKeepsHistory(s: State, s': State, id: nat, k: RecordKey, r: Record)
    requires HistoryOk(s) && RecordChange(s, s', id, k, r)
    ensures HistoryOk(s')
  {
    forall p ensures PaymentHistoryOk(s', p) { assert PaymentHistoryOk(s, p); }
    forall l ensures RecordHistoryOk(s', l) { assert RecordHistoryOk(s, l); }
    forall e ensures EventHistoryOk(s', e) { assert EventHistoryOk(s, e); }
    forall i ensures CommitKnown(s', i) { assert CommitKnown(s, i); }
  }

  lemma RecordChangeKeepsLog(s: State, s': State, id: nat, k: RecordKey, r: Record)
    requires LogOk(s) && RecordChange(s, s', id, k, r)
    ensures LogOk(s')
  {
    forall i | 0 <= i < |s'.log| ensures CallOk(s', s'.log[i]) {
      assert CallOk(s, s.log[i]);
    }
  }

  lemma RecordChangeKeepsPairs(s: State, s': State, id: nat, k: RecordKey, r: Record)
    requires CallersOk(s) && PairsOk(s) && RecordChange(s, s', id, k, r)
    ensures PairsOk(s')
  {
    forall i, j | i in s'.callers && j in s'.callers && i != j ensures Apart(s'.callers[i], s'.callers[j]) {
      assert Apart(s.callers[i], s.callers[j]);
      assert CallerOk(s, s.callers[i]) && CallerOk(s, s.callers[j]);
    }
  }

  lemma RecordChangeKeepsEventIds(s: State, s': State, id: nat, k: RecordKey, r: Record)
    requires EventIdsOk(s) && RecordChange(s, s', id, k, r)
    ensures EventIdsOk(s')
  {
    forall i | i in s'.callers ensures EventIdOk(s', s'.callers[i]) {
      assert EventIdOk(s, s.callers[i]);
    }
    forall i, j | i in s'.callers && j in s'.callers && i != j ensures EventsApart(s'.callers[i], s'.callers[j]) {
      assert EventsApart(s.callers[i], s.callers[j]);
    }
  }

  lemma RecordChangeKeepsInv(s: State, s': State, id: nat, k: RecordKey, r: Record)
    requires Inv(s) && RecordChange(s, s', id, k, r)
    requires CallerOk(s', s'.callers[id])
    ensures Inv(s')
  {
    forall d | d in s.callers && d != id ensures Undisturbed(s, s', s.callers[d]) {
    }
    OthersKept(s, s', id);
    RecordChangeKeepsPairs(s, s', id, k, r);
    RecordChangeKeepsTables(s, s', id, k, r);
    RecordChangeKeepsHistory(s, s', id, k, r);
    RecordChangeKeepsEventIds(s, s', id, k, r);
    RecordChangeKeepsLog(s, s', id, k, r);
  }
}
