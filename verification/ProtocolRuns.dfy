/** The invariant over whole runs, and what a run never takes back. */
module ProtocolRuns {
  import opened Options
  import opened Payments
  import opened IdempotencyRecords
  import opened Protocol
  import opened ProtocolInvariant
  import opened ProtocolSteps
  import opened ProtocolCommit

  lemma InitInv()
    ensures Inv(INIT)
  {
  }

  lemma AcquisitionKeepsInv(s: State, step: Step)
    requires Inv(s) && Enabled(s, step)
    requires step.Lookup? || step.TryInsert? || step.Reactivate? || step.Takeover? || step.CloseFailed?
    ensures Inv(Apply(s, step))
  {
    match step
    case Lookup(id, appNow) => LookupKeepsInv(s, id, appNow);
    case TryInsert(id, expiresAt, lost) => TryInsertKeepsInv(s, id, expiresAt, lost);
    case Reactivate(id, expiresAt, lost) => ReactivateKeepsInv(s, id, expiresAt, lost);
    case Takeover(id, expiresAt, statementNow, lost) => TakeoverKeepsInv(s, id, expiresAt, statementNow, lost);
    case CloseFailed(id, lost) => CloseFailedKeepsInv(s, id, lost);
  }

  lemma WorkKeepsInv(s: State, step: Step)
    requires Inv(s) && Enabled(s, step)
    requires step.CallAuthorize? || step.InsertPayment? || step.LockPayment? || step.CallCapture?
          || step.UpdatePayment? || step.RecordOutbox? || step.Complete? || step.DbCommit?
    ensures Inv(Apply(s, step))
  {
    match step
    case CallAuthorize(id) => CallAuthorizeKeepsInv(s, id);
    case InsertPayment(id, createdAt) => InsertPaymentKeepsInv(s, id, createdAt);
    case LockPayment(id) => LockPaymentKeepsInv(s, id);
    case CallCapture(id, configured) => CallCaptureKeepsInv(s, id, configured);
    case UpdatePayment(id) => UpdatePaymentKeepsInv(s, id);
    case RecordOutbox(id, at) => RecordOutboxKeepsInv(s, id, at);
    case Complete(id) => CompleteKeepsInv(s, id);
    case DbCommit(id) => DbCommitKeepsInv(s, id);
  }

  predicate Acquisition(step: Step) {
    step.Lookup? || step.TryInsert? || step.Reactivate? || step.Takeover? || step.CloseFailed?
  }

  predicate Thrown(step: Step) {
    step.AuthorizeThrows? || step.BeginFails? || step.CaptureThrows? || step.StatementFails?
  }

  lemma OwnerStepKeepsInv(s: State, step: Step)
    requires Inv(s) && Enabled(s, step)
    requires !step.Tick? && !step.Arrive? && !Acquisition(step)
    ensures Inv(Apply(s, step))
  {
    if Plain(step) {
      PlainKeepsInv(s, step);
    } else if Thrown(step) {
      ThrowStepKeepsInv(s, step);
    } else {
      WorkKeepsInv(s, step);
    }
  }

  lemma StepKeepsInv(s: State, step: Step)
    requires Inv(s) && Enabled(s, step)
    ensures Inv(Apply(s, step))
  {
    if step.Tick? {
      TickKeepsInv(s, step.now);
    } else if step.Arrive? {
      ArriveKeepsInv(s, step.id, step.cmd);
    } else if Acquisition(step) {
      AcquisitionKeepsInv(s, step);
    } else {
      OwnerStepKeepsInv(s, step);
    }
  }

  lemma {:induction false} RunInv(run: seq<State>, i: nat)
    requires IsRun(run) && i < |run|
    ensures Inv(run[i])
  {
    if i == 0 {
      InitInv();
    } else {
      RunInv(run, i - 1);
      var step := StepAt(run, i - 1);
      StepKeepsInv(run[i - 1], step);
    }
  }

  /** The step a run takes at `i`. */
  lemma StepAt(run: seq<State>, i: nat) returns (step: Step)
    requires IsRun(run) && i < |run| - 1
    ensures Enabled(run[i], step) && run[i + 1] == Apply(run[i], step)
  {
    assert Linked(run, i);
    step :| Enabled(run[i], step) && run[i + 1] == Apply(run[i], step);
  }

  lemma ReachableInv(s: State)
    requires Reachable(s)
    ensures Inv(s)
  {
    var run :| IsRun(run) && run[|run| - 1] == s;
    RunInv(run, |run| - 1);
  }

  lemma PrefixReachable(run: seq<State>, i: nat)
    requires IsRun(run) && i < |run|
    ensures Reachable(run[i])
  {
    var front := run[..i + 1];
    forall m | 0 <= m < |front| - 1 ensures Linked(front, m) { assert Linked(run, m); }
    assert IsRun(front) && front[|front| - 1] == run[i];
  }

  lemma ReachesNext(s: State, step: Step) returns (s': State)
    requires Reachable(s) && Enabled(s, step)
    ensures s' == Apply(s, step) && Reachable(s')
  {
    s' := Apply(s, step);
    var run :| IsRun(run) && run[|run| - 1] == s;
    var longer := run + [s'];
    forall i | 0 <= i < |longer| - 1 ensures Linked(longer, i) {
      if i < |run| - 1 {
        assert Linked(run, i);
      } else {
        assert Next(s, s');
      }
    }
    assert IsRun(longer) && longer[|longer| - 1] == s';
  }

  lemma InitReachable()
    ensures Reachable(INIT)
  {
    assert IsRun([INIT]);
  }

  // ----- what only grows -----

  /** A row's successor: its request and reserved id stay, completion is final, a new token is fresh. */
  predicate RecordGrows(r: Record, r': Record, bound: Id) {
    && r'.requestHash == r.requestHash
    && r'.resourceId == r.resourceId
    && (r.status == Completed ==> r' == r)
    && (r'.processingToken == r.processingToken || r'.processingToken >= bound)
    && (r.status == Unsuccessful ==> r' == r || r'.processingToken >= bound)
  }

  /** A payment's successor: identity stays and the status follows the transition table. */
  predicate PaymentGrows(a: Payment, b: Payment) {
    b == a || (SameIdentity(a, b) && a.status == Payments.Authorized && CanTransition(a.status, b.status))
  }

  /** A call's successor: its command, its token, its commit and its answer stay. */
  predicate CallerGrows(c: Caller, c': Caller) {
    && c'.cmd == c.cmd
    && (c.token.Some? ==> c'.token == c.token && c'.resourceId == c.resourceId)
    && (c.txn == Committed ==> c'.txn == Committed && c'.row == c.row && c'.event == c.event && c'.record == c.record)
    && (c.phase.Done? ==> c'.phase == c.phase && c'.token == c.token)
  }

  ghost predicate Grows(s: State, s': State) {
    && s.now <= s'.now && s.nextId <= s'.nextId
    && (forall k :: k in s.records ==> k in s'.records && RecordGrows(s.records[k], s'.records[k], s.nextId))
    && (forall p :: p in s.payments ==> p in s'.payments && PaymentGrows(s.payments[p], s'.payments[p]))
    && (forall e :: e in s.events ==> e in s'.events && s'.events[e] == s.events[e])
    && (forall id :: id in s.callers ==> id in s'.callers && CallerGrows(s.callers[id], s'.callers[id]))
    && s.log <= s'.log
  }

  lemma GrowsTransitive(a: State, b: State, c: State)
    requires Grows(a, b) && Grows(b, c)
    ensures Grows(a, c)
  {
    forall k | k in a.records ensures k in c.records && RecordGrows(a.records[k], c.records[k], a.nextId) {
      assert k in b.records && RecordGrows(b.records[k], c.records[k], b.nextId);
    }
    forall p | p in a.payments ensures p in c.payments && PaymentGrows(a.payments[p], c.payments[p]) {
      assert p in b.payments;
    }
    forall id | id in a.callers ensures id in c.callers && CallerGrows(a.callers[id], c.callers[id]) {
      assert id in b.callers;
    }
  }

  lemma CommitGrows(s: State, s': State, id: nat)
    requires Installs(s, s', id) && s.now <= s'.now
    requires RecordOk(s, KeyOf(s.callers[id].cmd), s.records[KeyOf(s.callers[id].cmd)])
    ensures Grows(s, s')
  {
  }

  /** Phases that tell of a record found held or failed. */
  predicate MayRemember(phase: Phase) {
    phase.Reactivating? || phase.TakingOver? || phase == Done(Err(RequestInProgress))
  }

  /** The step does not lead to one of those phases. */
  predicate Forgets(c: Caller, c': Caller) {
    MayRemember(c'.phase) ==> c'.phase == c.phase
  }

  /** A call about to reach the provider without a transaction had reached that point, and read its row, before. */
  predicate KeepsReading(c: Caller, c': Caller) {
    c'.phase.Checking? && c'.txn == Aborted ==> c.phase.Checking? && c'.row == c.row
  }

  /** Errors that say what went wrong before any commit was sent. */
  predicate Definite(e: Error) {
    e != OwnershipLost && e != DatabaseError
  }

  predicate FailsDefinitely(phase: Phase) {
    || (phase.Closing? && Definite(phase.cause))
    || (phase.Done? && phase.outcome.Err? && Definite(phase.outcome.error))
  }

  /** A call failing with such an error has no transaction that could take effect. */
  predicate CommittedNothing(c: Caller) {
    FailsDefinitely(c.phase) ==> c.txn == NotStarted || c.txn == Aborted
  }

  predicate NotOwner(s: State, c: Caller) {
    c.token.Some? && !OwnedBy(s.records, KeyOf(c.cmd), c.token.value)
  }

  /** A step of the call keeps its error honest, and reports lost ownership only of a record it does not own. */
  predicate KeepsAnswers(s: State, c: Caller, c': Caller) {
    && (CommittedNothing(c) ==> CommittedNothing(c'))
    && (c'.phase == Closing(OwnershipLost) ==> c'.phase == c.phase || NotOwner(s, c))
    && (c'.phase == Done(Err(OwnershipLost)) ==> c'.phase == c.phase || c.phase == Closing(OwnershipLost) || NotOwner(s, c))
  }

  /** A step that leaves tables alone moves one call at most and may append to the log. */
  ghost predicate MovesOne(s: State, s': State, id: nat) {
    && id in s.callers && id in s'.callers
    && s'.callers == s.callers[id := s'.callers[id]]
    && s'.records == s.records && s'.payments == s.payments && s'.events == s.events
    && s.nextId <= s'.nextId && s.now <= s'.now
    && s.log <= s'.log && |s'.log| <= |s.log| + 1
    && CallerGrows(s.callers[id], s'.callers[id]) && s'.callers[id].token == s.callers[id].token
    && Forgets(s.callers[id], s'.callers[id])
    && KeepsAnswers(s, s.callers[id], s'.callers[id]) && KeepsReading(s.callers[id], s'.callers[id])
  }

  lemma MovesOneGrows(s: State, s': State, id: nat)
    requires MovesOne(s, s', id)
    requires RecordsOk(s)
    ensures Grows(s, s')
  {
  }

  /** The statements and checks that may throw. */
  predicate Branching(step: Step) {
    step.InsertPayment? || step.LockPayment? || step.CallCapture? || step.UpdatePayment? || step.RecordOutbox?
    || step.Complete?
  }

  /** Replacing one call by a successor that keeps its claims. */
  lemma PutMovesOne(s: State, id: nat, c': Caller)
    requires id in s.callers && CallerGrows(s.callers[id], c') && Forgets(s.callers[id], c')
    requires c'.token == s.callers[id].token && KeepsAnswers(s, s.callers[id], c') && KeepsReading(s.callers[id], c')
    ensures MovesOne(s, Put(s, id, c'), id)
  {
  }

  lemma LoggedMovesOne(s: State, id: nat, c': Caller, call: Call)
    requires id in s.callers && CallerGrows(s.callers[id], c') && Forgets(s.callers[id], c')
    requires c'.token == s.callers[id].token && KeepsAnswers(s, s.callers[id], c') && KeepsReading(s.callers[id], c')
    ensures MovesOne(s, Put(s, id, c').(log := s.log + [call]), id)
  {
  }

  lemma ThrowMovesOne(s: State, id: nat, cause: Error)
    requires id in s.callers && (InTransaction(s.callers[id].phase) || BeforeTransaction(s.callers[id].phase))
    requires ControlOk(s.callers[id]) && (cause == OwnershipLost ==> NotOwner(s, s.callers[id]))
    ensures MovesOne(s, Throw(s, id, cause), id)
  {
  }

  lemma LockPaymentMovesOne(s: State, s': State, id: nat)
    requires Enabled(s, LockPayment(id)) && ControlOk(s.callers[id]) && s' == DoLockPayment(s, id)
    ensures MovesOne(s, s', id)
  {
    if s.callers[id].resourceId !in s.payments {
      ThrowMovesOne(s, id, PaymentNotFound);
    } else {
      PutMovesOne(s, id, s'.callers[id]);
    }
  }

  lemma CallCaptureMovesOne(s: State, s': State, id: nat, configured: bool)
    requires Enabled(s, CallCapture(id, configured)) && ControlOk(s.callers[id])
    requires s' == DoCallCapture(s, id, configured)
    ensures MovesOne(s, s', id)
  {
    var c := s.callers[id];
    var row := c.row.value;
    if row.status != Payments.Authorized {
      ThrowMovesOne(s, id, PaymentNotCapturable);
    } else if !configured {
      ThrowMovesOne(s, id, ProviderNotConfigured);
    } else if !NonEmpty(row.providerPaymentId) {
      ThrowMovesOne(s, id, ProviderReferenceMissing);
    } else {
      LoggedMovesOne(s, id, c.(phase := InCapture), CaptureCall(id, row.id, row.providerPaymentId.value,
                                                                row.amountMinor, row.currency, c.txn == Open));
    }
  }

  lemma UpdatePaymentMovesOne(s: State, s': State, id: nat)
    requires Enabled(s, UpdatePayment(id)) && ControlOk(s.callers[id]) && s' == DoUpdatePayment(s, id)
    ensures MovesOne(s, s', id)
  {
    var c := s.callers[id];
    if UpdateIfAuthorized(s.payments, c.resourceId, c.phase.captureResult, c.phase.at).1.None? {
      ThrowMovesOne(s, id, ConditionalUpdateMissed);
    } else {
      PutMovesOne(s, id, s'.callers[id]);
    }
  }

  lemma InsertPaymentMovesOne(s: State, s': State, id: nat, createdAt: Time)
    requires Enabled(s, InsertPayment(id, createdAt)) && ControlOk(s.callers[id]) && s' == DoInsertPayment(s, id, createdAt)
    ensures MovesOne(s, s', id)
  {
    if s.callers[id].resourceId in s.payments {
      ThrowMovesOne(s, id, UniqueViolation);
    } else {
      PutMovesOne(s, id, s'.callers[id]);
    }
  }

  lemma RecordOutboxMovesOne(s: State, s': State, id: nat, at: Time)
    requires Enabled(s, RecordOutbox(id, at)) && ControlOk(s.callers[id]) && s' == DoRecordOutbox(s, id, at)
    ensures MovesOne(s, s', id)
  {
    var c := s.callers[id];
    match RecordEvent(OperationOf(c.cmd), s.nextId, c.cmd.correlationId, c.row.value, at)
    case Failure(reason) => ThrowMovesOne(s, id, EventRejected(reason));
    case Success(event) => PutMovesOne(s, id, c.(phase := Completing, event := Some(event)));
  }

  lemma CompleteMovesOne(s: State, s': State, id: nat)
    requires Enabled(s, Complete(id)) && ControlOk(s.callers[id]) && s' == DoComplete(s, id)
    ensures MovesOne(s, s', id)
  {
    if NotOwner(s, s.callers[id]) {
      ThrowMovesOne(s, id, OwnershipLost);
    } else {
      PutMovesOne(s, id, s'.callers[id]);
    }
  }

  lemma BranchingMovesOne(s: State, s': State, step: Step)
    requires Enabled(s, step) && Branching(step) && s' == Apply(s, step)
    requires ControlOk(s.callers[step.id])
    ensures MovesOne(s, s', step.id)
  {
    match step
    case LockPayment(id) => LockPaymentMovesOne(s, s', id);
    case CallCapture(id, configured) => CallCaptureMovesOne(s, s', id, configured);
    case UpdatePayment(id) => UpdatePaymentMovesOne(s, s', id);
    case InsertPayment(id, createdAt) => InsertPaymentMovesOne(s, s', id, createdAt);
    case RecordOutbox(id, at) => RecordOutboxMovesOne(s, s', id, at);
    case Complete(id) => CompleteMovesOne(s, s', id);
  }

  lemma FinishingMovesOne(s: State, step: Step)
    requires Enabled(s, step) && Finishing(step)
    requires ControlOk(s.callers[step.id])
    ensures MovesOne(s, Apply(s, step), step.id)
  {
    var c := s.callers[step.id];
    match step
    case SendCommit(id) => PutMovesOne(s, id, c.(phase := AwaitingCommit, txn := Committing));
    case DbAbort(id) => PutMovesOne(s, id, c.(txn := Aborted, paymentLock := false, recordLock := false));
    case CommitAcknowledged(id) => PutMovesOne(s, id, c.(phase := Done(Ok(ReplyOf(c)))));
    case CommitFails(id) => PutMovesOne(s, id, c.(phase := Closing(DatabaseError)));
    case Crash(id) => PutMovesOne(s, id, c.(phase := Crashed));
  }

  lemma ProceedingMovesOne(s: State, step: Step)
    requires Enabled(s, step) && Plain(step) && !Finishing(step)
    requires ControlOk(s.callers[step.id])
    ensures MovesOne(s, Apply(s, step), step.id)
  {
    PutMovesOne(s, step.id, Apply(s, step).callers[step.id]);
  }

  lemma PlainMovesOne(s: State, step: Step)
    requires Enabled(s, step) && Plain(step)
    requires ControlOk(s.callers[step.id])
    ensures MovesOne(s, Apply(s, step), step.id)
  {
    if Finishing(step) { FinishingMovesOne(s, step); } else { ProceedingMovesOne(s, step); }
  }

  lemma ThrownMovesOne(s: State, step: Step)
    requires Enabled(s, step) && Thrown(step)
    requires ControlOk(s.callers[step.id])
    ensures MovesOne(s, Apply(s, step), step.id)
  {
    ThrowMovesOne(s, step.id, ProviderThrew);
    ThrowMovesOne(s, step.id, DatabaseError);
  }

  lemma CallAuthorizeMovesOne(s: State, id: nat)
    requires Enabled(s, CallAuthorize(id)) && ControlOk(s.callers[id])
    ensures MovesOne(s, DoCallAuthorize(s, id), id)
  {
  }

  lemma OwnStepMovesOne(s: State, step: Step)
    requires Enabled(s, step) && !step.Tick? && !step.Arrive? && !Acquisition(step) && !step.DbCommit?
    requires ControlOk(s.callers[step.id])
    ensures MovesOne(s, Apply(s, step), step.id)
  {
    if Plain(step) {
      PlainMovesOne(s, step);
    } else if Branching(step) {
      BranchingMovesOne(s, Apply(s, step), step);
    } else if Thrown(step) {
      ThrownMovesOne(s, step);
    } else {
      CallAuthorizeMovesOne(s, step.id);
    }
  }

  /** A step that writes at most one idempotency row. */
  ghost predicate WritesOne(s: State, s': State, id: nat) {
    && id in s.callers && id in s'.callers
    && s'.callers == s.callers[id := s'.callers[id]]
    && s'.payments == s.payments && s'.events == s.events && s'.log == s.log
    && s.nextId <= s'.nextId && s.now <= s'.now
    && CallerGrows(s.callers[id], s'.callers[id])
    && KeepsAnswers(s, s.callers[id], s'.callers[id]) && KeepsReading(s.callers[id], s'.callers[id])
    && var k := KeyOf(s.callers[id].cmd);
       && (s'.records == s.records || (k in s'.records && s'.records == s.records[k := s'.records[k]]))
       && (k in s.records ==> RecordGrows(s.records[k], s'.records[k], s.nextId))
       && (k in s'.records && s'.records[k].status == Completed ==> k in s.records && s'.records[k] == s.records[k])
       && (k in s.records && s.records[k].status == Unsuccessful ==>
             s'.records[k].status == Unsuccessful || s'.records[k].status == Processing)
       && (k in s'.records && s'.records[k].status == Unsuccessful ==>
             || (k in s.records && s'.records[k] == s.records[k] && s'.callers[id].token == s.callers[id].token)
             || (s'.callers[id].phase.Done? && s.callers[id].token == Some(s'.records[k].processingToken)))
  }

  lemma WritesOneGrows(s: State, s': State, id: nat)
    requires WritesOne(s, s', id)
    ensures Grows(s, s')
  {
  }

  lemma LookupWritesOne(s: State, id: nat, appNow: Time)
    requires Enabled(s, Lookup(id, appNow)) && ControlOk(s.callers[id])
    ensures WritesOne(s, DoLookup(s, id, appNow), id)
  {
  }

  lemma AcquisitionWritesOne(s: State, step: Step)
    requires Enabled(s, step) && (step.Lookup? || step.TryInsert? || step.Reactivate? || step.Takeover?)
    requires ControlOk(s.callers[step.id])
    ensures WritesOne(s, Apply(s, step), step.id)
  {
    if step.Lookup? { LookupWritesOne(s, step.id, step.appNow); }
  }

  lemma CloseWritesOne(s: State, id: nat, lost: bool)
    requires Enabled(s, CloseFailed(id, lost))
    requires ControlOk(s.callers[id])
    ensures WritesOne(s, Apply(s, CloseFailed(id, lost)), id)
  {
  }

  /** What a step does to the state, kind by kind. */
  ghost predicate Effect(s: State, s': State, step: Step) {
    if step.Tick? then s' == s.(now := s'.now) && s.now <= s'.now
    else if step.Arrive? then
      && step.id !in s.callers && step.id in s'.callers
      && s' == s.(callers := s.callers[step.id := s'.callers[step.id]])
      && s'.callers[step.id].phase == FirstLookup && s'.callers[step.id].token.None?
    else if Acquisition(step) then WritesOne(s, s', step.id)
    else if step.DbCommit? then Installs(s, s', step.id) && s'.now == s.now
    else MovesOne(s, s', step.id)
  }

  lemma OwnStepEffect(s: State, s': State, step: Step)
    requires Enabled(s, step) && s' == Apply(s, step) && !step.Tick? && !step.Arrive? && !step.DbCommit?
    requires ControlOk(s.callers[step.id])
    ensures Effect(s, s', step)
  {
    if step.CloseFailed? {
      CloseWritesOne(s, step.id, step.lost);
    } else if Acquisition(step) {
      AcquisitionWritesOne(s, step);
    } else {
      OwnStepMovesOne(s, step);
    }
  }

  lemma StepEffect(s: State, s': State, step: Step)
    requires CallersOk(s) && EventIdsOk(s) && Enabled(s, step) && s' == Apply(s, step)
    ensures Effect(s, s', step)
  {
    if step.Tick? || step.Arrive? {
    } else if step.DbCommit? {
      assert CallerOk(s, s.callers[step.id]) && EventIdOk(s, s.callers[step.id]);
      DbCommitInstalls(s, step.id);
    } else {
      assert CallerOk(s, s.callers[step.id]);
      OwnStepEffect(s, s', step);
    }
  }

  lemma EffectGrows(s: State, s': State, step: Step)
    requires RecordsOk(s) && Effect(s, s', step)
    ensures Grows(s, s')
  {
    if step.Tick? || step.Arrive? {
    } else if Acquisition(step) {
      WritesOneGrows(s, s', step.id);
    } else if step.DbCommit? {
      assert RecordOk(s, KeyOf(s.callers[step.id].cmd), s.records[KeyOf(s.callers[step.id].cmd)]);
      CommitGrows(s, s', step.id);
    } else {
      MovesOneGrows(s, s', step.id);
    }
  }

  lemma StepGrows(s: State, s': State, step: Step)
    requires Inv(s) && Enabled(s, step) && s' == Apply(s, step)
    ensures Grows(s, s')
  {
    StepEffect(s, s', step);
    EffectGrows(s, s', step);
  }

  /** A step leaves the record of every call but its own untouched. */
  lemma OthersStay(s: State, s': State, step: Step, id: nat)
    requires Effect(s, s', step)
    requires id in s.callers && (step.Tick? || step.id != id)
    ensures id in s'.callers && s'.callers[id] == s.callers[id]
  {
  }

  lemma {:induction false} RunGrows(run: seq<State>, i: nat, j: nat)
    requires IsRun(run) && i <= j < |run|
    ensures Grows(run[i], run[j])
    decreases j - i
  {
    if i < j {
      RunGrows(run, i, j - 1);
      RunInv(run, j - 1);
      var step := StepAt(run, j - 1);
      StepGrows(run[j - 1], run[j], step);
      GrowsTransitive(run[i], run[j - 1], run[j]);
    }
  }

  // ----- looking back and ahead over a run -----

  /** `step` is one the run takes at `i`. */
  ghost predicate TakenAt(run: seq<State>, i: int, step: Step) {
    0 <= i < |run| - 1 && Enabled(run[i], step) && run[i + 1] == Apply(run[i], step)
  }

  /** What a call is now it became at some step of its own. */
  lemma {:induction false} Became(run: seq<State>, j: nat, id: nat, holds: Caller -> bool) returns (i: nat, step: Step)
    requires IsRun(run) && j < |run| && id in run[j].callers && holds(run[j].callers[id])
    ensures i < j && TakenAt(run, i, step) && !step.Tick? && step.id == id
    ensures id in run[i + 1].callers && holds(run[i + 1].callers[id])
    ensures id in run[i].callers ==> !holds(run[i].callers[id])
    decreases j
  {
    step := StepAt(run, j - 1);
    if id in run[j - 1].callers && holds(run[j - 1].callers[id]) {
      i, step := Became(run, j - 1, id, holds);
    } else {
      i := j - 1;
      OnlyOwnSteps(run, j - 1, step, id);
    }
  }

  /** A call that has changed has taken the step itself. */
  lemma OnlyOwnSteps(run: seq<State>, i: nat, step: Step, id: nat)
    requires IsRun(run) && TakenAt(run, i, step) && id in run[i + 1].callers
    requires id in run[i].callers ==> run[i + 1].callers[id] != run[i].callers[id]
    ensures !step.Tick? && step.id == id
  {
    RunInv(run, i);
    StepEffect(run[i], run[i + 1], step);
    if id in run[i].callers && (step.Tick? || step.id != id) { OthersStay(run[i], run[i + 1], step, id); }
  }

  /** A run's step is the call's own or leaves it alone. */
  lemma OwnOrOther(run: seq<State>, i: nat, id: nat) returns (step: Step)
    requires IsRun(run) && i < |run| - 1 && id in run[i].callers
    ensures TakenAt(run, i, step) && id in run[i + 1].callers && ControlOk(run[i].callers[id])
    ensures (step.Tick? || step.id != id) ==> run[i + 1].callers[id] == run[i].callers[id]
    ensures !step.Tick? && step.id == id ==> !step.Arrive?
  {
    step := StepAt(run, i);
    RunInv(run, i);
    assert CallerOk(run[i], run[i].callers[id]);
    StepEffect(run[i], run[i + 1], step);
    if step.Tick? || step.id != id {
      OthersStay(run[i], run[i + 1], step, id);
    } else {
      RunGrows(run, i, i + 1);
    }
  }
}
