/**
 Which requests can still succeed. From every reachable state, whatever calls have crashed, hang or hold locks: a
 create can be answered unless its key was used for another request, and a capture exactly when its own key has
 completed already or the payment is still AUTHORIZED.
 */
module Recovery {
  import opened Payments
  import opened IdempotencyRecords
  import opened Protocol
  import opened ProtocolInvariant
  import opened ProtocolRuns
  import opened Continuations
  import CrossTable
  import Sets

  // ----- the database resolves what is open -----

  function Holding(s: State): set<nat> {
    set d | d in s.callers && s.callers[d].paymentLock
  }

  lemma NoneHolding(s: State)
    requires CallersOk(s) && Holding(s) == {}
    ensures NoLocks(s)
  {
    forall d | d in s.callers ensures !s.callers[d].paymentLock && !s.callers[d].recordLock {
      assert CallerOk(s, s.callers[d]) && d !in Holding(s);
    }
  }

  lemma Aborts(o: State, s: State, d: nat) returns (s': State)
    requires Follows(o, s) && CallersOk(s) && d in Holding(s)
    ensures Follows(o, s') && s' == s.(callers := s'.callers) && s'.callers.Keys == s.callers.Keys
    ensures Holding(s') == Holding(s) - {d}
  {
    assert CallerOk(s, s.callers[d]);
    s' := Goes(o, s, DbAbort(d));
  }

  lemma {:induction false} Settles(o: State, s: State) returns (s': State)
    requires Reachable(o) && Follows(o, s)
    ensures Follows(o, s') && NoLocks(s') && s' == s.(callers := s'.callers) && s'.callers.Keys == s.callers.Keys
    decreases |Holding(s)|
  {
    FollowsReachable(o, s);
    ReachableInv(s);
    if Holding(s) == {} {
      NoneHolding(s);
      s' := s;
    } else {
      var d :| d in Holding(s);
      var t := Aborts(o, s, d);
      s' := Settles(o, t);
    }
  }

  // ----- the answer a new call can get -----

  /** In `t`, which may follow `s`, a call that had not arrived in `s` has been answered successfully. */
  ghost predicate SucceedsIn(s: State, t: State, id: nat, cmd: Command) {
    && Follows(s, t) && id !in s.callers && id in t.callers && t.callers[id].cmd == cmd
    && t.callers[id].phase.Done? && t.callers[id].phase.outcome.Ok?
  }

  ghost predicate CanSucceed(s: State, cmd: Command) {
    exists t, id :: SucceedsIn(s, t, id, cmd)
  }

  /** A completed record of the same request is replayed. */
  lemma Replays(s: State, id: nat, cmd: Command) returns (t: State)
    requires Reachable(s) && id !in s.callers && ValidCommand(cmd)
    requires KeyOf(cmd) in s.records && s.records[KeyOf(cmd)].status == Completed
    requires s.records[KeyOf(cmd)].requestHash == RequestOf(cmd)
    ensures SucceedsIn(s, t, id, cmd)
  {
    ReachableInv(s);
    assert RecordOk(s, KeyOf(cmd), s.records[KeyOf(cmd)]);
    Stays(s);
    t := Goes(s, s, Arrive(id, cmd));
    t := Goes(s, t, Lookup(id, 0));
  }

  /** The id a claimed create works on is no payment's yet. */
  lemma ReservedIsFree(s: State, cmd: Command)
    requires Reachable(s) && cmd.CreateCommand? && Claimable(s, cmd)
    ensures ClaimedId(s, cmd) !in s.payments
  {
    var p := ClaimedId(s, cmd);
    if p in s.payments {
      CrossTable.CreateAgreement(s, p);
      var l :| CrossTable.CompletedCreate(s, p, l);
      ReservationsApart(s, cmd, l);
    }
  }

  lemma ReservationsApart(s: State, cmd: Command, l: RecordKey)
    requires Reachable(s) && cmd.CreateCommand? && Claimable(s, cmd)
    requires l in s.records && l.scope.CreateScope? && s.records[l].status == Completed
    ensures s.records[l].resourceId != ClaimedId(s, cmd)
  {
    ReachableInv(s);
    assert RecordOk(s, l, s.records[l]);
  }

  lemma CreateSucceeds(s: State, cmd: Command) returns (t: State, id: nat)
    requires Reachable(s) && ValidCommand(cmd) && cmd.CreateCommand? && Claimable(s, cmd)
    ensures SucceedsIn(s, t, id, cmd)
  {
    id := Sets.Fresh(s.callers.Keys);
    ReservedIsFree(s, cmd);
    Stays(s);
    t := Settles(s, s);
    t := Claims(s, t, id, cmd);
    t := Creates(s, t, id, "provider");
    t := IsAnswered(s, t, id);
  }

  lemma CaptureSucceeds(s: State, cmd: Command) returns (t: State, id: nat)
    requires Reachable(s) && ValidCommand(cmd) && cmd.CaptureCommand? && Claimable(s, cmd)
    requires cmd.paymentId in s.payments && s.payments[cmd.paymentId].status == Payments.Authorized
    ensures SucceedsIn(s, t, id, cmd)
  {
    id := Sets.Fresh(s.callers.Keys);
    CrossTable.RowsAreWellShaped(s, cmd.paymentId);
    CaptureClaims(s, cmd);
    Stays(s);
    t := Settles(s, s);
    t := Claims(s, t, id, cmd);
    t := Captures(s, t, id);
    t := IsAnswered(s, t, id);
  }

  lemma CaptureClaims(s: State, cmd: Command)
    requires Reachable(s) && cmd.CaptureCommand?
    ensures ClaimedId(s, cmd) == cmd.paymentId
    ensures KeyOf(cmd) in s.records ==> s.records[KeyOf(cmd)].requestHash == RequestOf(cmd)
  {
    ReachableInv(s);
    assert KeyOf(cmd) in s.records ==> RecordOk(s, KeyOf(cmd), s.records[KeyOf(cmd)]);
  }

  /** An answered call has the request of its record, which is completed. */
  lemma AnsweredHasRecord(s: State, t: State, id: nat, cmd: Command)
    requires Reachable(s) && SucceedsIn(s, t, id, cmd)
    ensures Reachable(t) && Grows(s, t)
    ensures KeyOf(cmd) in t.records && t.records[KeyOf(cmd)].status == Completed
    ensures t.records[KeyOf(cmd)].requestHash == RequestOf(cmd)
  {
    FollowsReachable(s, t);
    ReachableInv(t);
    assert CallerOk(t, t.callers[id]);
  }

  /** A create can still be answered exactly when its key has not been used for another request. */
  lemma CreateCanSucceedIff(s: State, cmd: Command)
    requires Reachable(s) && ValidCommand(cmd) && cmd.CreateCommand?
    ensures CanSucceed(s, cmd) <==> (KeyOf(cmd) in s.records ==> s.records[KeyOf(cmd)].requestHash == RequestOf(cmd))
  {
    var k := KeyOf(cmd);
    forall t, id | SucceedsIn(s, t, id, cmd)
      ensures k in s.records ==> s.records[k].requestHash == RequestOf(cmd)
    {
      AnsweredHasRecord(s, t, id, cmd);
    }
    if k in s.records && s.records[k].requestHash == RequestOf(cmd) && s.records[k].status == Completed {
      var id := Sets.Fresh(s.callers.Keys);
      var t := Replays(s, id, cmd);
    } else if k in s.records ==> s.records[k].requestHash == RequestOf(cmd) {
      var t, id := CreateSucceeds(s, cmd);
    }
  }

  /** A capture's own completed record, or one it can still complete. */
  lemma CaptureNeeds(s: State, t: State, id: nat, cmd: Command)
    requires Reachable(s) && cmd.CaptureCommand? && cmd.paymentId in s.payments && SucceedsIn(s, t, id, cmd)
    ensures CrossTable.CompletedCapture(s, cmd.paymentId, KeyOf(cmd))
         || s.payments[cmd.paymentId].status == Payments.Authorized
  {
    var p := cmd.paymentId;
    AnsweredHasRecord(s, t, id, cmd);
    assert CrossTable.CompletedCapture(t, p, KeyOf(cmd));
    CrossTable.CaptureAgreement(s, p);
    CrossTable.CaptureAgreement(t, p);
    if CrossTable.IsCaptured(s, p) {
      var l :| CrossTable.CompletedCapture(s, p, l);
      assert CrossTable.CompletedCapture(t, p, l);
    }
  }

  /** A capture of an existing payment can still be answered exactly when its key has completed or it is AUTHORIZED. */
  lemma CaptureCanSucceedIff(s: State, cmd: Command)
    requires Reachable(s) && ValidCommand(cmd) && cmd.CaptureCommand? && cmd.paymentId in s.payments
    ensures CanSucceed(s, cmd) <==>
      CrossTable.CompletedCapture(s, cmd.paymentId, KeyOf(cmd)) || s.payments[cmd.paymentId].status == Payments.Authorized
  {
    forall t, id | SucceedsIn(s, t, id, cmd)
      ensures CrossTable.CompletedCapture(s, cmd.paymentId, KeyOf(cmd))
           || s.payments[cmd.paymentId].status == Payments.Authorized
    {
      CaptureNeeds(s, t, id, cmd);
    }
    CaptureClaims(s, cmd);
    if CrossTable.CompletedCapture(s, cmd.paymentId, KeyOf(cmd)) {
      var id := Sets.Fresh(s.callers.Keys);
      var t := Replays(s, id, cmd);
    } else if s.payments[cmd.paymentId].status == Payments.Authorized {
      var t, id := CaptureSucceeds(s, cmd);
    }
  }
}
