/** What an error answer tells the client about the fate of its request. */
module ErrorAnswers {
  import opened IdempotencyRecords
  import opened Protocol
  import opened ProtocolInvariant
  import opened ProtocolRuns
  import opened Fencing

  /** The call still holds its record's token, and the record is FAILED. */
  predicate ClosedUnderOwnToken(s: State, c: Caller) {
    && c.token.Some? && KeyOf(c.cmd) in s.records
    && s.records[KeyOf(c.cmd)].processingToken == c.token.value
    && s.records[KeyOf(c.cmd)].status == Unsuccessful
  }

  predicate LostOwnership(phase: Phase) {
    phase == Closing(OwnershipLost) || phase == Done(Err(OwnershipLost))
  }

  predicate Honest(s: State, id: nat)
    requires id in s.callers
  {
    var c := s.callers[id];
    && CommittedNothing(c)
    && (ClosedUnderOwnToken(s, c) ==> c.phase.Done?)
    && (LostOwnership(c.phase) ==> Superseded(s, id) || c.txn == Committed)
  }

  ghost predicate AllHonest(s: State) {
    forall id :: id in s.callers ==> Honest(s, id)
  }

  // ----- who owns a record -----

  lemma TokensDiffer(s: State, i: nat, j: nat)
    requires PairsOk(s) && i in s.callers && j in s.callers
    ensures i != j && s.callers[i].token.Some? && s.callers[j].token.Some? ==> s.callers[i].token != s.callers[j].token
  {
    if i != j { assert Apart(s.callers[i], s.callers[j]); }
  }

  /** A COMPLETED record under the call's own token was completed by that call. */
  lemma OwnCompletion(s: State, id: nat)
    requires Inv(s) && id in s.callers && s.callers[id].token.Some? && KeyOf(s.callers[id].cmd) in s.records
    requires var r := s.records[KeyOf(s.callers[id].cmd)];
             r.status == Completed && r.processingToken == s.callers[id].token.value
    ensures s.callers[id].txn == Committed
  {
    var k := KeyOf(s.callers[id].cmd);
    assert RecordHistoryOk(s, k);
    var origin := s.history.completedBy[k];
    assert CallerOk(s, s.callers[origin]);
    TokensDiffer(s, origin, id);
  }

  /** A call that does not own its record has been superseded, has committed, or has closed it itself. */
  lemma NotOwnerMeans(s: State, id: nat)
    requires Inv(s) && id in s.callers && NotOwner(s, s.callers[id])
    ensures Superseded(s, id) || s.callers[id].txn == Committed || ClosedUnderOwnToken(s, s.callers[id])
  {
    var c := s.callers[id];
    assert CallerOk(s, c);
    var r := s.records[KeyOf(c.cmd)];
    if r.processingToken == c.token.value && r.status == Completed { OwnCompletion(s, id); }
  }

  lemma SupersededStays(s: State, s': State, id: nat)
    requires Grows(s, s') && Superseded(s, id) && OwnerOk(s, s.callers[id])
    ensures Superseded(s', id)
  {
  }

  // ----- steps -----

  lemma OthersStayHonest(s: State, s': State, step: Step, id: nat)
    requires CallersOk(s) && PairsOk(s) && Effect(s, s', step) && Grows(s, s')
    requires id in s.callers && Honest(s, id) && (step.Tick? || step.id != id)
    ensures id in s'.callers && Honest(s', id)
  {
    OthersStay(s, s', step, id);
    assert CallerOk(s, s.callers[id]);
    if Superseded(s, id) { SupersededStays(s, s', id); }
    NotClosedByOthers(s, s', step, id);
  }

  /** No step of another call makes this call's record FAILED under this call's token. */
  lemma NotClosedByOthers(s: State, s': State, step: Step, id: nat)
    requires CallersOk(s) && PairsOk(s) && Effect(s, s', step)
    requires id in s.callers && (step.Tick? || step.id != id) && id in s'.callers && s'.callers[id] == s.callers[id]
    ensures ClosedUnderOwnToken(s', s'.callers[id]) ==> ClosedUnderOwnToken(s, s.callers[id])
  {
    assert CallerOk(s, s.callers[id]);
    if Acquisition(step) { OthersClosing(s, s', step.id, id); }
  }

  lemma OthersClosing(s: State, s': State, other: nat, id: nat)
    requires CallersOk(s) && PairsOk(s) && WritesOne(s, s', other)
    requires id in s.callers && other != id && s'.callers[id] == s.callers[id] && CallerOk(s, s.callers[id])
    ensures ClosedUnderOwnToken(s', s'.callers[id]) ==> ClosedUnderOwnToken(s, s.callers[id])
  {
    TokensDiffer(s, other, id);
  }

  /** The step's own call. */
  lemma OwnStaysHonest(s: State, s': State, step: Step)
    requires Inv(s) && Effect(s, s', step) && Grows(s, s') && !step.Tick? && !step.Arrive?
    requires step.id in s.callers && Honest(s, step.id) && step.id in s'.callers
    ensures Honest(s', step.id)
  {
    var id := step.id;
    var c := s.callers[id];
    assert CallerOk(s, c);
    if Superseded(s, id) { SupersededStays(s, s', id); }
    if NotOwner(s, c) { NotOwnerMeans(s, id); }
    OwnNotReopened(s, s', step);
    OwnAnswers(s, s', step);
  }

  lemma OwnNotReopened(s: State, s': State, step: Step)
    requires Effect(s, s', step) && !step.Tick? && !step.Arrive?
    requires step.id in s.callers && step.id in s'.callers && ControlOk(s.callers[step.id])
    requires ClosedUnderOwnToken(s, s.callers[step.id]) ==> s.callers[step.id].phase.Done?
    ensures ClosedUnderOwnToken(s', s'.callers[step.id]) ==> s'.callers[step.id].phase.Done?
  {
  }

  lemma OwnAnswers(s: State, s': State, step: Step)
    requires Effect(s, s', step) && !step.Tick? && !step.Arrive?
    requires step.id in s.callers && step.id in s'.callers && CommittedNothing(s.callers[step.id])
    ensures CommittedNothing(s'.callers[step.id])
    ensures LostOwnership(s'.callers[step.id].phase) ==>
      LostOwnership(s.callers[step.id].phase) || NotOwner(s, s.callers[step.id])
    ensures s.callers[step.id].txn == Committed ==> s'.callers[step.id].txn == Committed
    ensures s.callers[step.id].phase.Done? ==> s'.callers[step.id].phase == s.callers[step.id].phase
  {
  }

  lemma StepKeepsHonesty(s: State, s': State, step: Step)
    requires Inv(s) && AllHonest(s) && Enabled(s, step) && s' == Apply(s, step)
    ensures AllHonest(s')
  {
    StepEffect(s, s', step);
    EffectGrows(s, s', step);
    EffectKeepsHonesty(s, s', step);
  }

  lemma EffectKeepsHonesty(s: State, s': State, step: Step)
    requires Inv(s) && AllHonest(s) && Effect(s, s', step) && Grows(s, s')
    ensures AllHonest(s')
  {
    forall id | id in s'.callers ensures Honest(s', id) {
      if !step.Tick? && step.id == id {
        if !step.Arrive? { OwnStaysHonest(s, s', step); }
      } else {
        OthersStayHonest(s, s', step, id);
      }
    }
  }

  lemma {:induction false} RunHonest(run: seq<State>, i: nat)
    requires IsRun(run) && i < |run|
    ensures AllHonest(run[i])
  {
    if i > 0 {
      RunHonest(run, i - 1);
      RunInv(run, i - 1);
      var step := StepAt(run, i - 1);
      StepKeepsHonesty(run[i - 1], run[i], step);
    }
  }

  // ----- what the answers mean -----

  /** OWNERSHIP_LOST: the record has moved on to another token, or this very call's commit went through unheard. */
  lemma OwnershipLostMeans(s: State, id: nat)
    requires Reachable(s) && id in s.callers && s.callers[id].phase == Done(Err(OwnershipLost))
    ensures Superseded(s, id) || s.callers[id].txn == Committed
  {
    var run :| IsRun(run) && run[|run| - 1] == s;
    RunHonest(run, |run| - 1);
    assert Honest(s, id);
  }

  /** Any other error but DatabaseError: the call has committed nothing, and in no continuation will it. */
  lemma DefiniteErrorMeans(run: seq<State>, i: nat, j: nat, id: nat, error: Error)
    requires IsRun(run) && i <= j < |run| && id in run[i].callers
    requires run[i].callers[id].phase == Done(Err(error)) && Definite(error)
    ensures id in run[j].callers && run[j].callers[id].phase == Done(Err(error))
    ensures run[j].callers[id].txn == NotStarted || run[j].callers[id].txn == Aborted
    ensures !Enabled(run[j], DbCommit(id))
  {
    RunGrows(run, i, j);
    RunHonest(run, j);
    assert Honest(run[j], id);
  }
}
