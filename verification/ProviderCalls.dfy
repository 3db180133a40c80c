/** What the payment provider sees: stable references, exclusive captures, and how often it can be called again. */
module ProviderCalls {
  import opened Options
  import opened Payments
  import opened IdempotencyRecords
  import opened Protocol
  import opened ProtocolInvariant
  import opened ProtocolRuns
  import CrossTable
  import Sets

  // ----- stable identity -----

  /** Every authorize call ever made for one (scope, key) presents the same payment; distinct keys never share one. */
  lemma StableAuthorizeIdentity(s: State, i: nat, j: nat)
    requires Reachable(s) && i < |s.log| && j < |s.log|
    requires s.log[i].AuthorizeCall? && s.log[j].AuthorizeCall?
    ensures s.log[i].key == s.log[j].key <==> s.log[i].paymentId == s.log[j].paymentId
    ensures s.log[i].key == s.log[j].key ==>
      && s.log[i].merchantId == s.log[j].merchantId
      && s.log[i].amountMinor == s.log[j].amountMinor
      && s.log[i].currency == s.log[j].currency
  {
    ReachableInv(s);
    assert CallOk(s, s.log[i]) && CallOk(s, s.log[j]);
  }

  /** A payment that exists was authorized under the very id, merchant, amount and currency its row holds. */
  lemma AuthorizeCallsMatchTheRow(s: State, i: nat)
    requires Reachable(s) && i < |s.log| && s.log[i].AuthorizeCall? && s.log[i].paymentId in s.payments
    ensures var row := s.payments[s.log[i].paymentId];
            && row.merchantId == s.log[i].merchantId
            && row.amountMinor == s.log[i].amountMinor
            && row.currency == s.log[i].currency
  {
    ReachableInv(s);
    var p := s.log[i].paymentId;
    assert CallOk(s, s.log[i]);
    assert PaymentHistoryOk(s, p);
    var id := s.history.authorizedBy[p];
    assert CallerOk(s, s.callers[id]);
    SameReservation(s, s.log[i].key, KeyOf(s.callers[id].cmd));
  }

  lemma SameReservation(s: State, k: RecordKey, l: RecordKey)
    requires ReservationsOk(s) && k in s.records && l in s.records && k.scope.CreateScope? && l.scope.CreateScope?
    requires s.records[k].resourceId == s.records[l].resourceId
    ensures k == l
  {
  }

  /** Every capture call carries the amount, currency and provider reference of its payment's committed row. */
  lemma CaptureCallsMatchTheRow(s: State, i: nat)
    requires Reachable(s) && i < |s.log| && s.log[i].CaptureCall?
    ensures s.log[i].paymentId in s.payments
    ensures var row := s.payments[s.log[i].paymentId];
            && row.amountMinor == s.log[i].amountMinor
            && row.currency == s.log[i].currency
            && row.providerPaymentId == Some(s.log[i].reference)
  {
    ReachableInv(s);
    assert CallOk(s, s.log[i]);
  }

  // ----- exclusion -----

  /** The call is inside `provider.capture` with its transaction still open in the database. */
  predicate LiveInCapture(s: State, id: nat, p: Id) {
    && id in s.callers && s.callers[id].phase.InCapture? && s.callers[id].txn == Open
    && s.callers[id].resourceId == p
  }

  /** At most one live transaction is inside the provider's capture for a payment, over all keys and owners. */
  lemma OneLiveCapture(s: State, p: Id, a: nat, b: nat)
    requires Reachable(s) && LiveInCapture(s, a, p) && LiveInCapture(s, b, p)
    ensures a == b
    ensures p in s.payments && s.payments[p].status == Payments.Authorized
  {
    ReachableInv(s);
    assert CallerOk(s, s.callers[a]) && CallerOk(s, s.callers[b]);
    assert a != b ==> Apart(s.callers[a], s.callers[b]);
  }

  predicate CallsCapture(s: State, s': State, p: Id) {
    && |s'.log| == |s.log| + 1
    && s'.log[|s.log|].CaptureCall? && s'.log[|s.log|].paymentId == p
  }

  /**
   A call made by a live transaction finds the payment AUTHORIZED and not captured: once a capture of `p` has
   committed, only a call whose own transaction the database has already aborted can reach the provider for `p`.
   */
  lemma CaptureAfterCommitIsDead(s: State, id: nat, configured: bool, p: Id)
    requires Reachable(s) && Enabled(s, CallCapture(id, configured))
    requires CallsCapture(s, Apply(s, CallCapture(id, configured)), p)
    ensures CrossTable.IsCaptured(s, p) ==> s.callers[id].txn == Aborted
    ensures s.callers[id].txn == Open || s.callers[id].txn == Aborted
    ensures Apply(s, CallCapture(id, configured)).log[|s.log|].live <==> s.callers[id].txn == Open
  {
    ReachableInv(s);
    assert CallerOk(s, s.callers[id]);
  }

  /** Only the capture step reaches the provider's capture. */
  lemma OnlyCallCaptureCaptures(s: State, step: Step, p: Id)
    requires Enabled(s, step) && CallsCapture(s, Apply(s, step), p)
    ensures step.CallCapture?
  {
  }

  /** The call has read the payment as AUTHORIZED, and the database has aborted its transaction since. */
  predicate Unaware(s: State, id: nat, p: Id) {
    && id in s.callers && s.callers[id].phase.Checking? && s.callers[id].txn == Aborted
    && s.callers[id].row.Some? && s.callers[id].row.value.id == p
    && s.callers[id].row.value.status == Payments.Authorized
  }

  ghost predicate Reaches(s: State, id: nat, p: Id) {
    Enabled(s, CallCapture(id, true)) && CallsCapture(s, Apply(s, CallCapture(id, true)), p)
  }

  lemma ReachingIsUnaware(s: State, id: nat, p: Id)
    requires id in s.callers && CallerOk(s, s.callers[id]) && CrossTable.IsCaptured(s, p) && Reaches(s, id, p)
    ensures Unaware(s, id, p)
  {
  }

  lemma UnawareReaches(s: State, id: nat, p: Id)
    requires Unaware(s, id, p) && NonEmpty(s.callers[id].row.value.providerPaymentId)
    ensures Reaches(s, id, p)
  {
  }

  // ----- counting -----

  predicate Captures(call: Call, p: Id) {
    call.CaptureCall? && call.paymentId == p
  }

  /** How often the provider has been asked to capture `p`. */
  function CountCaptures(log: seq<Call>, p: Id): nat {
    if log == [] then 0
    else CountCaptures(log[..|log| - 1], p) + (if Captures(log[|log| - 1], p) then 1 else 0)
  }

  function Captors(log: seq<Call>, p: Id): set<nat> {
    set i | 0 <= i < |log| && Captures(log[i], p) :: log[i].caller
  }

  ghost predicate DistinctCaptors(log: seq<Call>) {
    forall i, j :: 0 <= i < j < |log| && log[i].CaptureCall? && log[j].CaptureCall? ==> log[i].caller != log[j].caller
  }

  /** With distinct captors, counting calls is counting captors. */
  lemma {:induction false} CountIsCaptors(log: seq<Call>, p: Id)
    requires DistinctCaptors(log)
    ensures CountCaptures(log, p) == |Captors(log, p)|
  {
    if log == [] {
      assert Captors(log, p) == {};
    } else {
      var n := |log| - 1;
      var front := log[..n];
      CountIsCaptors(front, p);
      if Captures(log[n], p) {
        assert log[n].caller !in Captors(front, p);
        assert Captors(log, p) == Captors(front, p) + {log[n].caller};
      } else {
        assert Captors(log, p) == Captors(front, p);
      }
    }
  }

  /** The capture calls for `p` that reached the provider and have not committed. */
  function UncommittedCaptors(s: State, p: Id): set<nat> {
    set id | id in Captors(s.log, p) && id in s.callers && s.callers[id].txn != Committed
  }

  /** Captures of `p` number at most one more than the capture transactions that reached the provider and did not commit. */
  lemma CaptureCallsBounded(s: State, p: Id)
    requires Reachable(s)
    ensures CountCaptures(s.log, p) <= |UncommittedCaptors(s, p)| + 1
    ensures !CrossTable.IsCaptured(s, p) ==> CountCaptures(s.log, p) == |UncommittedCaptors(s, p)|
  {
    ReachableInv(s);
    CountIsCaptors(s.log, p);
    CaptorsSplit(s, p);
    if p in s.history.capturedBy {
      Sets.SubsetCounts(Captors(s.log, p), UncommittedCaptors(s, p) + {s.history.capturedBy[p]});
      CrossTable.CapturedHasCapture(s, p);
    }
  }

  /** At most one captor has committed: the one whose capture is on record. */
  lemma CaptorsSplit(s: State, p: Id)
    requires Inv(s)
    ensures p in s.history.capturedBy ==>
      Captors(s.log, p) <= UncommittedCaptors(s, p) + {s.history.capturedBy[p]}
    ensures p !in s.history.capturedBy ==> Captors(s.log, p) == UncommittedCaptors(s, p)
  {
    forall id | id in Captors(s.log, p) ensures CaptorKnown(s, p, id) { CaptorIsKnown(s, p, id); }
  }

  predicate CaptorKnown(s: State, p: Id, id: nat) {
    && id in s.callers
    && (s.callers[id].txn == Committed ==> p in s.history.capturedBy && s.history.capturedBy[p] == id)
  }

  lemma CaptorIsKnown(s: State, p: Id, id: nat)
    requires Inv(s) && id in Captors(s.log, p)
    ensures CaptorKnown(s, p, id)
  {
    var i :| 0 <= i < |s.log| && Captures(s.log[i], p) && s.log[i].caller == id;
    assert CallOk(s, s.log[i]);
    assert CallerOk(s, s.callers[id]) && CommitKnown(s, id);
  }
}
