/**
 What may follow a state, and the continuation in which nothing gets in a call's way: it claims its record, the
 provider says yes, its transaction commits and it is answered.
 */
module Continuations {
  import opened Options
  import opened Payments
  import opened IdempotencyRecords
  import opened Protocol
  import opened ProtocolRuns

  ghost predicate Continues(s: State, tail: seq<State>) {
    |tail| > 0 && tail[0] == s && forall i :: 0 <= i < |tail| - 1 ==> Linked(tail, i)
  }

  lemma {:induction false} TailReachable(s: State, tail: seq<State>, i: nat)
    requires Reachable(s) && Continues(s, tail) && i < |tail|
    ensures Reachable(tail[i]) && Grows(s, tail[i])
  {
    if i == 0 {
      ReachableInv(s);
    } else {
      TailReachable(s, tail, i - 1);
      assert Linked(tail, i - 1);
      var step :| Enabled(tail[i - 1], step) && tail[i] == Apply(tail[i - 1], step);
      var _ := ReachesNext(tail[i - 1], step);
      ReachableInv(tail[i - 1]);
      StepGrows(tail[i - 1], tail[i], step);
      GrowsTransitive(s, tail[i - 1], tail[i]);
    }
  }

  /** `s` may follow `o`. */
  ghost predicate Follows(o: State, s: State) {
    exists tail :: Continues(o, tail) && tail[|tail| - 1] == s
  }

  lemma FollowsReachable(o: State, s: State)
    requires Reachable(o) && Follows(o, s)
    ensures Reachable(s) && Grows(o, s)
  {
    var tail :| Continues(o, tail) && tail[|tail| - 1] == s;
    TailReachable(o, tail, |tail| - 1);
  }

  lemma Stays(o: State)
    ensures Follows(o, o)
  {
    assert Continues(o, [o]);
  }

  lemma Goes(o: State, s: State, step: Step) returns (s': State)
    requires Follows(o, s) && Enabled(s, step)
    ensures s' == Apply(s, step) && Follows(o, s')
  {
    s' := Apply(s, step);
    var tail :| Continues(o, tail) && tail[|tail| - 1] == s;
    var longer := tail + [s'];
    forall i | 0 <= i < |longer| - 1 ensures Linked(longer, i) {
      if i < |tail| - 1 {
        assert Linked(tail, i);
      } else {
        assert Next(s, s');
      }
    }
    assert Continues(o, longer) && longer[|longer| - 1] == s';
  }

  // ----- claiming the record -----

  predicate NoLocks(s: State) {
    forall d :: d in s.callers ==> !s.callers[d].paymentLock && !s.callers[d].recordLock
  }

  predicate Claimable(s: State, cmd: Command) {
    var k := KeyOf(cmd);
    k in s.records ==> s.records[k].requestHash == RequestOf(cmd) && s.records[k].status != Completed
  }

  /** The payment id a claim of the record works on. */
  function ClaimedId(s: State, cmd: Command): Id {
    if KeyOf(cmd) in s.records then s.records[KeyOf(cmd)].resourceId else ReservedId(s, cmd)
  }

  function Arrived(cmd: Command, phase: Phase): Caller {
    Caller(cmd, phase, None, 0, NotStarted, false, false, None, None, None)
  }

  function Claimant(cmd: Command, token: Id, resourceId: Id): Caller {
    Caller(cmd, if cmd.CreateCommand? then ReadyToAuthorize else ReadyToCapture, Some(token), resourceId, NotStarted,
           false, false, None, None, None)
  }

  function PhaseFor(s: State, cmd: Command): Phase {
    if KeyOf(cmd) !in s.records then Inserting
    else match s.records[KeyOf(cmd)].status
      case Processing => TakingOver
      case _ => Reactivating
  }

  predicate Placed(callers: map<nat, Caller>, callers': map<nat, Caller>, id: nat, c: Caller) {
    callers' == callers[id := c]
  }

  lemma PlacedOver(a: map<nat, Caller>, b: map<nat, Caller>, c: map<nat, Caller>, id: nat, x: Caller, y: Caller)
    requires Placed(a, b, id, x) && Placed(b, c, id, y)
    ensures Placed(a, c, id, y)
  {
  }

  lemma LooksUp(o: State, s: State, id: nat, cmd: Command) returns (s': State)
    requires Follows(o, s) && id !in s.callers && ValidCommand(cmd) && Claimable(s, cmd)
    ensures Follows(o, s') && s' == s.(callers := s'.callers)
    ensures Placed(s.callers, s'.callers, id, Arrived(cmd, PhaseFor(s, cmd)))
  {
    var t := Goes(o, s, Arrive(id, cmd));
    s' := Goes(o, t, Lookup(id, if KeyOf(cmd) in s.records then s.records[KeyOf(cmd)].processingExpiresAt else 0));
  }

  /** The call has just become the owner of its record, under a fresh token. */
  predicate Claimed(s: State, s': State, id: nat, cmd: Command) {
    && s'.payments == s.payments && s'.events == s.events && s'.nextId == s.nextId + 2
    && s'.records.Keys == s.records.Keys + {KeyOf(cmd)} && OwnedBy(s'.records, KeyOf(cmd), s.nextId)
    && Placed(s.callers, s'.callers, id, Claimant(cmd, s.nextId, ClaimedId(s, cmd)))
  }

  lemma ClaimsNew(o: State, s: State, id: nat, cmd: Command) returns (s': State)
    requires Follows(o, s) && In(s, id, Inserting) && s.callers[id] == Arrived(cmd, Inserting)
    requires KeyOf(cmd) !in s.records
    ensures Follows(o, s') && Claimed(s, s', id, cmd)
  {
    s' := Goes(o, s, TryInsert(id, 60_000, false));
  }

  lemma ClaimsFailed(o: State, s: State, id: nat, cmd: Command) returns (s': State)
    requires Follows(o, s) && NoLocks(s) && In(s, id, Reactivating) && s.callers[id] == Arrived(cmd, Reactivating)
    requires KeyOf(cmd) in s.records && Claimable(s, cmd) && s.records[KeyOf(cmd)].status == Unsuccessful
    ensures Follows(o, s') && Claimed(s, s', id, cmd)
  {
    s' := Goes(o, s, Reactivate(id, 60_000, false));
  }

  lemma ClaimsExpired(o: State, s: State, id: nat, cmd: Command) returns (s': State)
    requires Follows(o, s) && NoLocks(s) && In(s, id, TakingOver) && s.callers[id] == Arrived(cmd, TakingOver)
    requires KeyOf(cmd) in s.records && Claimable(s, cmd) && s.records[KeyOf(cmd)].status == Processing
    ensures Follows(o, s') && Claimed(s, s', id, cmd)
  {
    var lease := s.records[KeyOf(cmd)].processingExpiresAt;
    var now := if s.now <= lease then lease + 1 else s.now;
    s' := Goes(o, s, Tick(now));
    s' := Goes(o, s', Takeover(id, 60_000, now, false));
  }

  /** A new record, a FAILED one and a PROCESSING one whose lease is waited for can all be claimed. */
  lemma Claims(o: State, s: State, id: nat, cmd: Command) returns (s': State)
    requires Follows(o, s) && NoLocks(s) && id !in s.callers && ValidCommand(cmd) && Claimable(s, cmd)
    ensures Follows(o, s') && Claimed(s, s', id, cmd)
  {
    var t := LooksUp(o, s, id, cmd);
    if KeyOf(cmd) !in s.records {
      s' := ClaimsNew(o, t, id, cmd);
    } else if s.records[KeyOf(cmd)].status == Unsuccessful {
      s' := ClaimsFailed(o, t, id, cmd);
    } else {
      s' := ClaimsExpired(o, t, id, cmd);
    }
    PlacedOver(s.callers, t.callers, s'.callers, id, Arrived(cmd, PhaseFor(s, cmd)),
               Claimant(cmd, s.nextId, ClaimedId(s, cmd)));
  }

  // ----- up to the row -----

  /** Only the call `id` has moved. */
  ghost predicate OnlyCall(s: State, s': State, id: nat) {
    && id in s'.callers && s'.callers == s.callers[id := s'.callers[id]]
    && s'.payments == s.payments && s'.records == s.records
  }

  lemma Authorizes(o: State, s: State, id: nat, result: AuthorizeResult) returns (s': State)
    requires Follows(o, s) && In(s, id, ReadyToAuthorize) && s.callers[id].cmd.CreateCommand?
    ensures Follows(o, s') && OnlyCall(s, s', id) && s'.callers[id] == s.callers[id].(phase := Answered(result, 1))
  {
    s' := Goes(o, s, CallAuthorize(id));
    s' := Goes(o, s', AuthorizeReturns(id, result, 1));
  }

  /** The row a create inserts. */
  function RowFor(c: Caller, result: AuthorizeResult): Payment
    requires c.cmd.CreateCommand?
  {
    AuthorizationRow(c.resourceId, c.cmd.merchantId, c.cmd.amountMinor, c.cmd.currency, result, 1, 0)
  }

  lemma InsertsRow(o: State, s: State, id: nat, result: AuthorizeResult) returns (s': State)
    requires Follows(o, s) && In(s, id, Answered(result, 1)) && s.callers[id].cmd.CreateCommand?
    requires s.callers[id].resourceId !in s.payments && PaymentFree(s, id, s.callers[id].resourceId)
    ensures Follows(o, s') && OnlyCall(s, s', id)
    ensures s'.callers[id] == s.callers[id].(phase := RecordingEvent, txn := Open, paymentLock := true,
                                             row := Some(RowFor(s.callers[id], result)))
  {
    s' := Goes(o, s, Begin(id));
    s' := Goes(o, s', InsertPayment(id, 0));
  }

  lemma LocksRow(o: State, s: State, id: nat) returns (s': State)
    requires Follows(o, s) && In(s, id, ReadyToCapture)
    requires s.callers[id].resourceId in s.payments && PaymentFree(s, id, s.callers[id].resourceId)
    ensures Follows(o, s') && OnlyCall(s, s', id)
    ensures s'.callers[id] == s.callers[id].(phase := Checking, txn := Open, paymentLock := true,
                                             row := Some(s.payments[s.callers[id].resourceId]))
  {
    s' := Goes(o, s, Begin(id));
    s' := Goes(o, s', LockPayment(id));
  }

  predicate Capturable(row: Payment) {
    row.status == Payments.Authorized && NonEmpty(row.providerPaymentId)
  }

  lemma CallsProvider(o: State, s: State, id: nat) returns (s': State)
    requires Follows(o, s) && In(s, id, Checking) && s.callers[id].row.Some? && Capturable(s.callers[id].row.value)
    ensures Follows(o, s') && OnlyCall(s, s', id)
    ensures s'.callers[id] == s.callers[id].(phase := UpdatingPayment(CaptureSuccess, 2))
  {
    s' := Goes(o, s, CallCapture(id, true));
    s' := Goes(o, s', CaptureReturns(id, CaptureSuccess, 2));
  }

  lemma UpdatesRow(o: State, s: State, id: nat) returns (s': State)
    requires Follows(o, s) && In(s, id, UpdatingPayment(CaptureSuccess, 2)) && s.callers[id].txn == Open
    requires s.callers[id].resourceId in s.payments && Capturable(s.payments[s.callers[id].resourceId])
    ensures Follows(o, s') && OnlyCall(s, s', id)
    ensures s'.callers[id] == s.callers[id].(phase := RecordingEvent,
                                row := Some(CapturedRow(s.payments[s.callers[id].resourceId], CaptureSuccess, 2)))
  {
    s' := Goes(o, s, UpdatePayment(id));
  }

  // ----- from the row to the answer -----

  predicate RowReady(s: State, id: nat) {
    && In(s, id, RecordingEvent) && s.callers[id].txn == Open && s.callers[id].row.Some?
    && s.callers[id].token.Some? && OwnedBy(s.records, KeyOf(s.callers[id].cmd), s.callers[id].token.value)
    && RecordEvent(OperationOf(s.callers[id].cmd), s.nextId, s.callers[id].cmd.correlationId, s.callers[id].row.value, 2).Success?
  }

  lemma RecordsEvent(o: State, s: State, id: nat) returns (s': State)
    requires Follows(o, s) && RowReady(s, id)
    ensures Follows(o, s') && OnlyCall(s, s', id) && s'.callers[id].event.Some?
    ensures s'.callers[id] == s.callers[id].(phase := Completing, event := s'.callers[id].event)
  {
    s' := Goes(o, s, RecordOutbox(id, 2));
  }

  lemma Completes(o: State, s: State, id: nat) returns (s': State)
    requires Follows(o, s) && In(s, id, Completing) && s.callers[id].txn == Open && s.callers[id].row.Some?
    requires s.callers[id].token.Some? && OwnedBy(s.records, KeyOf(s.callers[id].cmd), s.callers[id].token.value)
    requires RecordFree(s, KeyOf(s.callers[id].cmd))
    ensures Follows(o, s') && OnlyCall(s, s', id) && s'.callers[id].record.Some?
    ensures s'.callers[id] == s.callers[id].(phase := ReadyToCommit, recordLock := true, record := s'.callers[id].record)
  {
    s' := Goes(o, s, Complete(id));
  }

  lemma Commits(o: State, s: State, id: nat) returns (s': State)
    requires Follows(o, s) && In(s, id, ReadyToCommit) && s.callers[id].txn == Open
    requires s.callers[id].row.Some? && s.callers[id].event.Some? && s.callers[id].record.Some?
    ensures var c := s.callers[id];
      && Follows(o, s') && s'.payments == s.payments[c.row.value.id := c.row.value]
      && s'.records == s.records[KeyOf(c.cmd) := c.record.value]
      && s'.callers == s.callers[id := c.(phase := AwaitingCommit, txn := Committed, paymentLock := false,
                                          recordLock := false)]
  {
    s' := Goes(o, s, SendCommit(id));
    s' := Goes(o, s', DbCommit(id));
  }

  /** The call's transaction has committed, and its answer is on the way. */
  predicate InCommit(s: State, s': State, id: nat) {
    && id in s.callers && id in s'.callers && s'.callers == s.callers[id := s'.callers[id]]
    && s'.records.Keys == s.records.Keys + {KeyOf(s.callers[id].cmd)}
    && s'.callers[id].phase == AwaitingCommit && s'.callers[id].txn == Committed
    && s'.callers[id].cmd == s.callers[id].cmd && s'.callers[id].row.Some?
    && !s'.callers[id].paymentLock && !s'.callers[id].recordLock
  }

  lemma Finishes(o: State, s: State, id: nat) returns (s': State)
    requires Follows(o, s) && RowReady(s, id) && RecordFree(s, KeyOf(s.callers[id].cmd))
    ensures Follows(o, s') && InCommit(s, s', id)
    ensures var row := s.callers[id].row.value; s'.payments == s.payments[row.id := row]
  {
    var t := RecordsEvent(o, s, id);
    t := Completes(o, t, id);
    s' := Commits(o, t, id);
  }

  /** The call owns its record and has done nothing else yet. */
  predicate Owner(s: State, id: nat) {
    && id in s.callers && s.callers[id].token.Some?
    && s.callers[id] == Claimant(s.callers[id].cmd, s.callers[id].token.value, s.callers[id].resourceId)
    && OwnedBy(s.records, KeyOf(s.callers[id].cmd), s.callers[id].token.value)
  }

  lemma CreateReady(o: State, s: State, id: nat, provider: string) returns (s': State)
    requires Follows(o, s) && Owner(s, id) && NoLocks(s)
    requires s.callers[id].cmd.CreateCommand? && s.callers[id].resourceId !in s.payments
    ensures Follows(o, s') && OnlyCall(s, s', id) && RowReady(s', id) && s'.callers[id].cmd == s.callers[id].cmd
    ensures s'.callers[id].row == Some(RowFor(s.callers[id], AuthorizeSuccess(provider, "reference")))
    ensures !s'.callers[id].recordLock
  {
    var t := Authorizes(o, s, id, AuthorizeSuccess(provider, "reference"));
    s' := InsertsRow(o, t, id, AuthorizeSuccess(provider, "reference"));
  }

  /** A create whose payment nobody has, to its commit. */
  lemma Creates(o: State, s: State, id: nat, provider: string) returns (s': State)
    requires Follows(o, s) && Owner(s, id) && NoLocks(s)
    requires s.callers[id].cmd.CreateCommand? && s.callers[id].resourceId !in s.payments
    ensures Follows(o, s') && NoLocks(s') && InCommit(s, s', id)
    ensures s'.payments == s.payments[s.callers[id].resourceId :=
              RowFor(s.callers[id], AuthorizeSuccess(provider, "reference"))]
  {
    var t := CreateReady(o, s, id, provider);
    s' := Finishes(o, t, id);
  }

  lemma CaptureReady(o: State, s: State, id: nat) returns (s': State)
    requires Follows(o, s) && Owner(s, id) && NoLocks(s) && s.callers[id].cmd.CaptureCommand?
    requires s.callers[id].resourceId in s.payments && Capturable(s.payments[s.callers[id].resourceId])
    ensures Follows(o, s') && OnlyCall(s, s', id) && RowReady(s', id) && s'.callers[id].cmd == s.callers[id].cmd
    ensures s'.callers[id].row == Some(CapturedRow(s.payments[s.callers[id].resourceId], CaptureSuccess, 2))
    ensures !s'.callers[id].recordLock
  {
    var t := LocksRow(o, s, id);
    t := CallsProvider(o, t, id);
    s' := UpdatesRow(o, t, id);
  }

  /** A capture of a payment that is still AUTHORIZED, to its commit. */
  lemma Captures(o: State, s: State, id: nat) returns (s': State)
    requires Follows(o, s) && Owner(s, id) && NoLocks(s) && s.callers[id].cmd.CaptureCommand?
    requires s.callers[id].resourceId in s.payments && Capturable(s.payments[s.callers[id].resourceId])
    requires s.payments[s.callers[id].resourceId].id == s.callers[id].resourceId
    ensures Follows(o, s') && InCommit(s, s', id)
    ensures var p := s.callers[id].resourceId;
            s'.payments == s.payments[p := CapturedRow(s.payments[p], CaptureSuccess, 2)]
  {
    var t := CaptureReady(o, s, id);
    s' := Finishes(o, t, id);
  }

  lemma IsAnswered(o: State, s: State, id: nat) returns (s': State)
    requires Follows(o, s) && In(s, id, AwaitingCommit) && s.callers[id].txn == Committed && s.callers[id].row.Some?
    ensures Follows(o, s') && id in s'.callers && s'.callers[id].cmd == s.callers[id].cmd
    ensures s'.callers[id].phase.Done? && s'.callers[id].phase.outcome.Ok?
  {
    s' := Goes(o, s, CommitAcknowledged(id));
  }
}
