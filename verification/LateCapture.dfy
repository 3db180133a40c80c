/**
 A run in which the provider is asked to capture a payment after a capture of it has committed: the database
 aborts a capture between its locking read and its provider call, another capture goes through, and the first,
 unaware, still calls. `CaptureAfterCommit.CalledAfterCaptureIff` shows that this is the only way. And a run that
 records an event its published schema rejects.
 */
module LateCapture {
  import opened Options
  import opened Payments
  import opened Protocol
  import opened ProtocolRuns
  import opened Continuations
  import CrossTable
  import CaptureAfterCommit

  const CREATE := CreateCommand("c", "create-key", 7, 100, TRY)
  const FIRST := CaptureCommand("c", "first-key", 1)
  const SECOND := CaptureCommand("c", "second-key", 1)

  lemma IsReachable(s: State)
    requires Follows(INIT, s)
    ensures Reachable(s)
  {
    InitReachable();
    FollowsReachable(INIT, s);
  }

  lemma Created(provider: string) returns (s: State)
    ensures Follows(INIT, s) && NoLocks(s)
    ensures s.callers.Keys == {0} && s.records.Keys == {KeyOf(CREATE)} && s.payments.Keys == {1}
    ensures s.payments[1].status == Payments.Authorized && s.payments[1].providerPaymentId == Some("reference")
    ensures s.payments[1].provider == provider && s.payments[1].id == 1
  {
    Stays(INIT);
    s := Claims(INIT, INIT, 0, CREATE);
    s := Creates(INIT, s, 0, provider);
  }

  /** The first capture holds the row when the database aborts its transaction. */
  lemma AbortedCapture() returns (s: State)
    ensures Follows(INIT, s) && NoLocks(s)
    ensures s.callers.Keys == {0, 1} && s.records.Keys == {KeyOf(CREATE), KeyOf(FIRST)}
    ensures s.payments.Keys == {1} && s.payments[1].id == 1 && Capturable(s.payments[1])
    ensures s.callers[1].phase == Checking && s.callers[1].txn == Aborted && s.callers[1].row == Some(s.payments[1])
  {
    s := Created("provider");
    s := Claims(INIT, s, 1, FIRST);
    s := LocksRow(INIT, s, 1);
    s := Goes(INIT, s, DbAbort(1));
  }

  /** A state after a committed capture of a payment, and a continuation that calls the provider for it again. */
  lemma ProviderCanBeCalledAfterCapture() returns (s: State, tail: seq<State>, p: Id)
    ensures Reachable(s) && CrossTable.IsCaptured(s, p) && CaptureAfterCommit.CalledIn(s, tail, p)
  {
    p := 1;
    s := AbortedCapture();
    s := Claims(INIT, s, 2, SECOND);
    s := Captures(INIT, s, 2);
    IsReachable(s);
    ReachableInv(s);
    tail := CaptureAfterCommit.UnawareCanCall(s, 1, p);
  }

  /** A provider with an empty name: the event that is recorded for its payment breaks its published schema. */
  lemma RecordedEventCanBreakContract() returns (s: State, e: Id)
    ensures Reachable(s) && e in s.events && !MeetsContract(s.events[e])
  {
    s := Created("");
    IsReachable(s);
    CrossTable.CreateAgreement(s, 1);
    e :| CrossTable.AuthorizeEvent(s, 1, e);
    CrossTable.RecordedEnvelopesMeetContractIff(s, e);
  }
}
