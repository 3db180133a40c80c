/** Fencing by processing token, absorption of COMPLETED, and replay of the one stored answer. */
module Fencing {
  import opened Options
  import opened Payments
  import opened IdempotencyRecords
  import opened Protocol
  import opened ProtocolInvariant
  import opened ProtocolCommit
  import opened ProtocolRuns
  import CrossTable

  /** Payments or events change, or a record becomes COMPLETED. */
  ghost predicate MakesDurable(s: State, s': State) {
    || s'.payments != s.payments
    || s'.events != s.events
    || exists k :: k in s'.records && s'.records[k].status == Completed && (k in s.records ==> s.records[k].status != Completed)
  }

  /** The call's record has moved on to another token. */
  predicate Superseded(s: State, id: nat) {
    && id in s.callers && s.callers[id].token.Some?
    && KeyOf(s.callers[id].cmd) in s.records
    && s.records[KeyOf(s.callers[id].cmd)].processingToken != s.callers[id].token.value
  }

  /** Before the commit step nothing else writes durably: the tables' other writers only open or close records. */
  lemma OnlyCommitsMakeDurable(s: State, s': State, step: Step)
    requires Reachable(s) && Enabled(s, step) && s' == Apply(s, step) && !step.DbCommit?
    ensures !MakesDurable(s, s')
  {
    ReachableInv(s);
    StepEffect(s, s', step);
    EffectIsNotDurable(s, s', step);
  }

  lemma EffectIsNotDurable(s: State, s': State, step: Step)
    requires Effect(s, s', step) && !step.DbCommit?
    ensures !MakesDurable(s, s')
  {
  }

  /**
   Whatever becomes durable does so in one commit, by a call that is at that instant the record's current owner,
   and it is exactly that call's row, event and answer.
   */
  lemma CommitBelongsToCurrentToken(s: State, step: Step)
    requires Reachable(s) && Enabled(s, step)
    requires MakesDurable(s, Apply(s, step))
    ensures step.DbCommit?
    ensures var c := s.callers[step.id];
            var s' := Apply(s, step);
            var k := KeyOf(c.cmd);
            && c.token.Some? && OwnedBy(s.records, k, c.token.value)
            && c.row.Some? && c.event.Some? && c.record.Some?
            && s'.payments == s.payments[c.resourceId := c.row.value]
            && s'.events == s.events[c.event.value.eventId := c.event.value] && c.event.value.eventId !in s.events
            && s'.records == s.records[k := c.record.value]
            && c.record.value == s.records[k].(status := Completed, response := Some(ReplyOf(c)))
            && AgreesWithRow(c.event.value, c.row.value)
  {
    if !step.DbCommit? {
      OnlyCommitsMakeDurable(s, Apply(s, step), step);
    } else {
      ReachableInv(s);
      CommitInstallsOwnersWrites(s, step.id);
    }
  }

  lemma CommitInstallsOwnersWrites(s: State, id: nat)
    requires Inv(s) && Enabled(s, DbCommit(id))
    ensures Installs(s, Apply(s, DbCommit(id)), id)
    ensures s.callers[id].record.value ==
            s.records[KeyOf(s.callers[id].cmd)].(status := Completed, response := Some(ReplyOf(s.callers[id])))
  {
    assert CallerOk(s, s.callers[id]) && EventIdOk(s, s.callers[id]);
    DbCommitInstalls(s, id);
  }

  /** Once superseded, always superseded: later tokens are later identifiers. */
  lemma SupersededForever(run: seq<State>, i: nat, j: nat, id: nat)
    requires IsRun(run) && i <= j < |run|
    requires Superseded(run[i], id)
    ensures Superseded(run[j], id)
  {
    RunGrows(run, i, j);
    RunInv(run, i);
    assert CallerOk(run[i], run[i].callers[id]);
  }

  lemma SupersededCannotWrite(s: State, id: nat, lost: bool)
    requires Superseded(s, id) && RecordLockOk(s, s.callers[id]) && ControlOk(s.callers[id])
    requires WritesOk(s.callers[id]) && AnswersOk(s, s.callers[id])
    ensures s.callers[id].txn != Committed && !Enabled(s, DbCommit(id))
    ensures Enabled(s, CloseFailed(id, lost)) ==> Apply(s, CloseFailed(id, lost)).records == s.records
    ensures Enabled(s, CloseFailed(id, lost)) && !lost ==>
      DoCloseFailed(s, id, lost).callers[id].phase == Done(Err(OwnershipLost))
  {
  }

  /**
   A call whose record was taken over or reactivated under a newer token never commits, in any continuation:
   its transaction has not committed, cannot, and its `markFailed` changes nothing and, if heard, answers
   OWNERSHIP_LOST.
   */
  lemma SupersededNeverWrites(run: seq<State>, i: nat, j: nat, id: nat, lost: bool)
    requires IsRun(run) && i <= j < |run|
    requires Superseded(run[i], id)
    ensures run[j].callers.Keys >= {id} && run[j].callers[id].txn != Committed
    ensures !Enabled(run[j], DbCommit(id))
    ensures Enabled(run[j], CloseFailed(id, lost)) ==> Apply(run[j], CloseFailed(id, lost)).records == run[j].records
    ensures Enabled(run[j], CloseFailed(id, lost)) && !lost ==>
      DoCloseFailed(run[j], id, lost).callers[id].phase == Done(Err(OwnershipLost))
  {
    SupersededForever(run, i, j, id);
    RunInv(run, j);
    assert CallerOk(run[j], run[j].callers[id]);
    SupersededCannotWrite(run[j], id, lost);
  }

  /** COMPLETED is absorbing: the row never changes again. */
  lemma CompletedIsAbsorbing(run: seq<State>, i: nat, j: nat, k: RecordKey)
    requires IsRun(run) && i <= j < |run|
    requires k in run[i].records && run[i].records[k].status == Completed
    ensures k in run[j].records && run[j].records[k] == run[i].records[k]
  {
    RunGrows(run, i, j);
  }

  /** A commit whose acknowledgement was lost is not undone by the `markFailed` that follows. */
  lemma LostAcknowledgementCannotUndo(s: State, id: nat, lost: bool)
    requires Reachable(s) && Enabled(s, CloseFailed(id, lost)) && s.callers[id].txn == Committed
    ensures Apply(s, CloseFailed(id, lost)).records == s.records
    ensures !lost ==> Apply(s, CloseFailed(id, lost)).callers[id].phase == Done(Err(OwnershipLost))
  {
    ReachableInv(s);
    assert CallerOk(s, s.callers[id]);
  }

  predicate Answered(s: State, id: nat, k: RecordKey, response: Response) {
    id in s.callers && KeyOf(s.callers[id].cmd) == k && s.callers[id].phase == Done(Ok(response))
  }

  /** Over a whole run, all successful answers for one (scope, key) are one answer: the stored one. */
  lemma ReplayEquality(run: seq<State>, i: nat, j: nat, a: nat, b: nat, k: RecordKey, ra: Response, rb: Response)
    requires IsRun(run) && i <= j < |run|
    requires Answered(run[i], a, k, ra) && Answered(run[j], b, k, rb)
    ensures ra == rb
    ensures k in run[j].records && run[j].records[k].response == Some(ra)
  {
    RunInv(run, i);
    RunInv(run, j);
    assert CallerOk(run[i], run[i].callers[a]) && CallerOk(run[j], run[j].callers[b]);
    CompletedIsAbsorbing(run, i, j, k);
  }

  /**
   Every successful answer is the answer of one committed call with the same key: 201 for a create and 200 for a
   capture, with the body of the row that call wrote, under the reserved payment id.
   */
  lemma AnswersComeFromOneCommit(s: State, id: nat, k: RecordKey, response: Response) returns (origin: nat)
    requires Reachable(s) && Answered(s, id, k, response)
    ensures origin in s.callers && s.callers[origin].txn == Committed && KeyOf(s.callers[origin].cmd) == k
    ensures k in s.records && RequestOf(s.callers[origin].cmd) == s.records[k].requestHash
    ensures RequestOf(s.callers[id].cmd) == s.records[k].requestHash
    ensures s.callers[origin].row.Some? && response == ReplyOf(s.callers[origin])
    ensures response.statusCode == (if k.scope.CreateScope? then 201 else 200)
    ensures response.body.id == s.records[k].resourceId && response.body.id in s.payments
    ensures SameIdentity(s.callers[origin].row.value, s.payments[response.body.id])
  {
    ReachableInv(s);
    assert CallerOk(s, s.callers[id]);
    assert RecordHistoryOk(s, k);
    origin := s.history.completedBy[k];
    OriginAnswers(s, origin);
  }

  lemma OriginAnswers(s: State, origin: nat)
    requires Inv(s) && origin in s.callers && s.callers[origin].txn == Committed
    ensures var c := s.callers[origin];
            && RecordWritten(c)
            && KeyOf(c.cmd) in s.records && c.record == Some(s.records[KeyOf(c.cmd)])
            && c.resourceId in s.payments && SameIdentity(c.row.value, s.payments[c.resourceId])
  {
    assert CallerOk(s, s.callers[origin]) && CommitKnown(s, origin);
    assert PaymentHistoryOk(s, s.callers[origin].resourceId);
  }

  /**
   The body of every successful answer shows the payment: a create's as it was authorized or declined, a capture's as
   it is. It claims a capture exactly when it says CAPTURED, and failure details exactly when it says one of FAILED and
   CAPTURE_FAILED.
   */
  lemma AnswersShowThePayment(s: State, id: nat, k: RecordKey, response: Response)
    requires Reachable(s) && Answered(s, id, k, response)
    ensures response.body.id in s.payments
    ensures var body, row := response.body, s.payments[response.body.id];
            && body.merchantId == row.merchantId && body.amountMinor == row.amountMinor && body.currency == row.currency
            && body.provider == row.provider && body.providerPaymentId == row.providerPaymentId
            && body.createdAt == row.createdAt
            && (body.capturedAt.Some? <==> body.status == Captured)
            && (body.failureCode.Some? <==> body.status == Failed || body.status == CaptureFailed)
            && (body.failureMessage.Some? <==> body.status == Failed || body.status == CaptureFailed)
            && (k.scope.CreateScope? ==> body.status == Payments.Authorized || body.status == Failed)
            && (k.scope.CaptureScope? ==> body.status == Captured || body.status == CaptureFailed)
            && (k.scope.CaptureScope? || !CrossTable.IsCaptured(s, body.id) ==> Shows(body, row))
  {
    var origin := AnswersComeFromOneCommit(s, id, k, response);
    ReachableInv(s);
    OriginAnswers(s, origin);
    CrossTable.CommittedShows(s, origin);
  }

  /** What a client is answered is what one recorded event tells its consumers, field by field. */
  lemma AnswerMatchesEvent(s: State, id: nat, k: RecordKey, response: Response) returns (e: Id)
    requires Reachable(s) && Answered(s, id, k, response)
    ensures e in s.events && Tells(response.body, s.events[e])
    ensures AuthorizeStage(s.events[e]) <==> k.scope.CreateScope?
  {
    var origin := AnswersComeFromOneCommit(s, id, k, response);
    ReachableInv(s);
    OriginAnswers(s, origin);
    assert CommitKnown(s, origin);
    var c := s.callers[origin];
    e := c.event.value.eventId;
    assert EventHistoryOk(s, e);
    ResponseAgreesWithEvent(OperationOf(c.cmd), e, c.cmd.correlationId, c.row.value, c.event.value.occurredAt);
  }

  /** Answers that can never be given, and throws that can never happen, whatever interleaves. */
  lemma UnreachableErrors(s: State, id: nat)
    requires Reachable(s) && id in s.callers
    ensures s.callers[id].phase != Done(Err(StateNotFound))
    ensures s.callers[id].phase != Closing(ProviderReferenceMissing)
         && s.callers[id].phase != Done(Err(ProviderReferenceMissing))
    ensures s.callers[id].phase != Closing(InvalidTransition) && s.callers[id].phase != Done(Err(InvalidTransition))
    ensures s.callers[id].phase != Closing(ConditionalUpdateMissed)
         && s.callers[id].phase != Done(Err(ConditionalUpdateMissed))
  {
    ReachableInv(s);
    assert CallerOk(s, s.callers[id]);
  }
}
