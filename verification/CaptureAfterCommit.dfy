/**
 After a capture has committed: from a given instant on, the provider is asked to capture the payment again in some
 continuation exactly if a call is left that read the payment as AUTHORIZED and has lost its transaction since.
 Nothing can bring about such a call later.
 */
module CaptureAfterCommit {
  import opened Payments
  import opened Protocol
  import opened ProtocolInvariant
  import opened ProtocolRuns
  import opened Continuations
  import CrossTable
  import opened ProviderCalls

  // ----- no call becomes unaware -----

  /** While its transaction lives, a call about to reach the provider has read the row as it is. */
  lemma LiveReadIsCurrent(s: State, id: nat, p: Id)
    requires CallersOk(s)
    ensures (&& id in s.callers && s.callers[id].phase.Checking? && s.callers[id].txn != Aborted
             && s.callers[id].row.Some? && s.callers[id].row.value.id == p) ==>
      p in s.payments && s.callers[id].row.value == s.payments[p]
  {
    assert id in s.callers ==> CallerOk(s, s.callers[id]);
  }

  lemma OwnStepUnaware(s: State, s': State, step: Step, p: Id)
    requires CallersOk(s) && Effect(s, s', step) && !step.Tick? && !step.Arrive?
    requires CrossTable.IsCaptured(s, p) && Unaware(s', step.id, p)
    ensures Unaware(s, step.id, p)
  {
    LiveReadIsCurrent(s, step.id, p);
  }

  lemma OthersStepUnaware(s: State, s': State, step: Step, id: nat, p: Id)
    requires Effect(s, s', step) && (step.Tick? || step.id != id) && Unaware(s', id, p)
    ensures Unaware(s, id, p)
  {
  }

  lemma UnawareStep(s: State, s': State, step: Step, id: nat, p: Id)
    requires CallersOk(s) && Effect(s, s', step)
    requires CrossTable.IsCaptured(s, p) && Unaware(s', id, p)
    ensures Unaware(s, id, p)
  {
    if step.Tick? || step.id != id {
      OthersStepUnaware(s, s', step, id, p);
    } else if !step.Arrive? {
      OwnStepUnaware(s, s', step, p);
    }
  }

  lemma CapturedStays(run: seq<State>, i: nat, j: nat, p: Id)
    requires IsRun(run) && i <= j < |run| && CrossTable.IsCaptured(run[i], p)
    ensures CrossTable.IsCaptured(run[j], p)
  {
    RunGrows(run, i, j);
  }

  lemma UnawareBefore(run: seq<State>, j: nat, id: nat, p: Id)
    requires IsRun(run) && j < |run| - 1 && CrossTable.IsCaptured(run[j], p) && Unaware(run[j + 1], id, p)
    ensures Unaware(run[j], id, p)
  {
    RunInv(run, j);
    var step := StepAt(run, j);
    StepEffect(run[j], run[j + 1], step);
    UnawareStep(run[j], run[j + 1], step, id, p);
  }

  /** Over a run, whoever is unaware of a committed capture was so already when it committed. */
  lemma {:induction false} UnawareWasUnaware(run: seq<State>, i: nat, j: nat, id: nat, p: Id)
    requires IsRun(run) && i <= j < |run|
    requires CrossTable.IsCaptured(run[i], p) && Unaware(run[j], id, p)
    ensures Unaware(run[i], id, p)
    decreases j - i
  {
    if i < j {
      CapturedStays(run, i, j - 1, p);
      UnawareBefore(run, j - 1, id, p);
      UnawareWasUnaware(run, i, j - 1, id, p);
    }
  }

  // ----- every continuation -----

  /** A step appends at most one call to the log. */
  lemma CountStep(s: State, s': State, step: Step, p: Id)
    requires Effect(s, s', step)
    ensures CountCaptures(s'.log, p) == CountCaptures(s.log, p) || CallsCapture(s, s', p)
    ensures CallsCapture(s, s', p) ==> CountCaptures(s'.log, p) == CountCaptures(s.log, p) + 1
  {
    if s'.log != s.log {
      assert |s'.log| == |s.log| + 1 && s'.log[..|s.log|] == s.log;
    }
  }

  lemma CallingIsReaching(s: State, step: Step, p: Id)
    requires Enabled(s, step) && step.CallCapture? && CallsCapture(s, Apply(s, step), p)
    ensures Reaches(s, step.id, p)
  {
  }

  lemma NobodyBecomesUnaware(s: State, s': State, step: Step, p: Id)
    requires CallersOk(s) && Effect(s, s', step) && Grows(s, s')
    requires CrossTable.IsCaptured(s, p) && forall id :: !Unaware(s, id, p)
    ensures CrossTable.IsCaptured(s', p) && forall id :: !Unaware(s', id, p)
  {
    forall id ensures !Unaware(s', id, p) {
      if Unaware(s', id, p) { UnawareStep(s, s', step, id, p); }
    }
  }

  /** With nobody unaware, a step neither calls the provider for `p` nor makes anyone unaware. */
  lemma QuietStep(s: State, s': State, step: Step, p: Id)
    requires Reachable(s) && Enabled(s, step) && s' == Apply(s, step)
    requires CrossTable.IsCaptured(s, p) && forall id :: !Unaware(s, id, p)
    ensures CrossTable.IsCaptured(s', p) && forall id :: !Unaware(s', id, p)
    ensures CountCaptures(s'.log, p) == CountCaptures(s.log, p)
  {
    ReachableInv(s);
    StepEffect(s, s', step);
    EffectGrows(s, s', step);
    CountStep(s, s', step, p);
    NobodyBecomesUnaware(s, s', step, p);
    if CallsCapture(s, s', p) { CallerIsUnaware(s, step, p); }
  }

  lemma CallerIsUnaware(s: State, step: Step, p: Id)
    requires CallersOk(s) && Enabled(s, step) && CallsCapture(s, Apply(s, step), p) && CrossTable.IsCaptured(s, p)
    ensures step.CallCapture? && Unaware(s, step.id, p)
  {
    OnlyCallCaptureCaptures(s, step, p);
    CallingIsReaching(s, step, p);
    assert CallerOk(s, s.callers[step.id]);
    ReachingIsUnaware(s, step.id, p);
  }

  /** If none is unaware when a capture has committed, the log never gains another capture of the payment. */
  lemma {:induction false} NeverCalledAgain(s: State, tail: seq<State>, i: nat, p: Id)
    requires Reachable(s) && CrossTable.IsCaptured(s, p) && Continues(s, tail) && i < |tail|
    requires forall id :: !Unaware(s, id, p)
    ensures CountCaptures(tail[i].log, p) == CountCaptures(s.log, p)
    ensures CrossTable.IsCaptured(tail[i], p) && forall id :: !Unaware(tail[i], id, p)
  {
    if i > 0 {
      NeverCalledAgain(s, tail, i - 1, p);
      TailReachable(s, tail, i - 1);
      assert Linked(tail, i - 1);
      var step :| Enabled(tail[i - 1], step) && tail[i] == Apply(tail[i - 1], step);
      QuietStep(tail[i - 1], tail[i], step, p);
    }
  }

  /** The provider is asked to capture `p` again at some later point. */
  ghost predicate CalledIn(s: State, tail: seq<State>, p: Id) {
    Continues(s, tail) && CountCaptures(tail[|tail| - 1].log, p) > CountCaptures(s.log, p)
  }

  lemma CallCounts(s: State, id: nat, p: Id)
    requires Inv(s) && Enabled(s, CallCapture(id, true)) && Reaches(s, id, p)
    ensures CountCaptures(Apply(s, CallCapture(id, true)).log, p) == CountCaptures(s.log, p) + 1
  {
    var s' := Apply(s, CallCapture(id, true));
    StepEffect(s, s', CallCapture(id, true));
    CountStep(s, s', CallCapture(id, true), p);
  }

  lemma UnawareCanCall(s: State, id: nat, p: Id) returns (tail: seq<State>)
    requires Inv(s) && Unaware(s, id, p)
    ensures CalledIn(s, tail, p)
  {
    assert CallerOk(s, s.callers[id]);
    UnawareReaches(s, id, p);
    CallCounts(s, id, p);
    tail := [s, Apply(s, CallCapture(id, true))];
    assert Next(tail[0], tail[1]);
  }

  /**
   Once a capture of `p` has committed, the provider is called again for `p` in some continuation if and only if a
   call is left that is unaware of it.
   */
  lemma CalledAfterCaptureIff(s: State, p: Id)
    requires Reachable(s) && CrossTable.IsCaptured(s, p)
    ensures (exists tail :: CalledIn(s, tail, p)) <==> (exists id :: Unaware(s, id, p))
  {
    ReachableInv(s);
    if exists id :: Unaware(s, id, p) {
      var id :| Unaware(s, id, p);
      var tail := UnawareCanCall(s, id, p);
    } else {
      forall tail | Continues(s, tail) ensures !CalledIn(s, tail, p) { NeverCalledAgain(s, tail, |tail| - 1, p); }
    }
  }
}
