/**
 `getExistingOrStart` reads, and later writes conditionally. Its answers are nevertheless those of one atomic
 acquire, token generations start one owner each, and IN_PROGRESS is only said of a record that was PROCESSING.
 */
module Acquisition {
  import opened Options
  import opened Payments
  import opened IdempotencyRecords
  import opened Protocol
  import opened ProtocolInvariant
  import opened ProtocolCommit
  import opened ProtocolRuns

  // ----- the atomic specification -----

  datatype Decision =
    | Start(record: Record)
    | Replay(response: Response)
    | DifferentRequest
    | Busy

  /** Read, decide and write in one instant of the database. */
  function AtomicAcquire(rows: Records, k: RecordKey, request: Request, now: Time, resourceId: Id,
                         expiresAt: Time, token: Id): (Records, Decision) {
    if k !in rows then
      var r := Record(request, Processing, resourceId, token, expiresAt, None);
      (rows[k := r], Start(r))
    else if rows[k].requestHash != request then (rows, DifferentRequest)
    else match rows[k].status
      case Completed =>
        if rows[k].response.Some? then (rows, Replay(rows[k].response.value)) else (rows, Busy)
      case Unsuccessful =>
        var r := rows[k].(status := Processing, processingExpiresAt := expiresAt, processingToken := token);
        (rows[k := r], Start(r))
      case Processing =>
        if rows[k].processingExpiresAt < now then
          var r := rows[k].(processingExpiresAt := expiresAt, processingToken := token);
          (rows[k := r], Start(r))
        else (rows, Busy)
  }

  predicate AcquiringStep(step: Step) {
    step.Lookup? || step.TryInsert? || step.Reactivate? || step.Takeover?
  }

  /** The instant and lease an acquiring step works with. */
  function LeaseOf(step: Step): Time
    requires AcquiringStep(step)
  {
    if step.Lookup? then 0 else step.expiresAt
  }

  function InstantOf(s: State, step: Step): Time
    requires AcquiringStep(step)
  {
    if step.Takeover? then step.statementNow else s.now
  }

  ghost function AtomicAt(s: State, step: Step): (Records, Decision)
    requires Enabled(s, step) && AcquiringStep(step)
  {
    var cmd := s.callers[step.id].cmd;
    AtomicAcquire(s.records, KeyOf(cmd), RequestOf(cmd), InstantOf(s, step), ReservedId(s, cmd), LeaseOf(step), s.nextId)
  }

  /** What the call's next phase says about the decision. */
  predicate Tells(c': Caller, d: Decision) {
    match d
    case Start(r) =>
      && c'.token == Some(r.processingToken) && c'.resourceId == r.resourceId
      && c'.phase == (if c'.cmd.CreateCommand? then ReadyToAuthorize else ReadyToCapture)
    case Replay(response) => c'.phase == Done(Ok(response))
    case DifferentRequest => c'.phase == Done(Err(KeyReusedWithDifferentRequest))
    case Busy => c'.phase == Done(Err(RequestInProgress))
  }

  predicate Undecided(phase: Phase) {
    Acquiring(phase) || phase == Done(Err(RequestInProgress)) || phase == Done(Err(DatabaseError))
  }

  /**
   Refinement: an acquiring step either leaves the rows alone and the call undecided (or refused as in progress,
   or its answer lost), or does at that instant exactly what the atomic acquire does and answers what it answers.
   A lost answer hides an atomic acquire or a refusal, never a partial write.
   */
  lemma AcquireRefinesAtomic(s: State, step: Step)
    requires Reachable(s) && Enabled(s, step) && AcquiringStep(step)
    ensures var s' := Apply(s, step);
            || (s'.records == s.records && Undecided(s'.callers[step.id].phase))
            || (s'.records == AtomicAt(s, step).0
                && (Tells(s'.callers[step.id], AtomicAt(s, step).1)
                    || s'.callers[step.id].phase == Done(Err(DatabaseError))))
  {
    ReachableInv(s);
    var c := s.callers[step.id];
    assert CallerOk(s, c);
    assert KeyOf(c.cmd) in s.records ==> RecordOk(s, KeyOf(c.cmd), s.records[KeyOf(c.cmd)]);
    StepRefines(s, Apply(s, step), step);
  }

  /** What refinement asks of one acquiring step of call `id`. */
  ghost predicate Refines(s: State, s': State, id: nat, atomic: (Records, Decision)) {
    && id in s'.callers
    && (|| (s'.records == s.records && Undecided(s'.callers[id].phase))
        || (s'.records == atomic.0
            && (Tells(s'.callers[id], atomic.1) || s'.callers[id].phase == Done(Err(DatabaseError)))))
  }

  lemma LookupRefines(s: State, s': State, id: nat, appNow: Time)
    requires Enabled(s, Lookup(id, appNow)) && s' == DoLookup(s, id, appNow) && AnswersOk(s, s.callers[id])
    requires var k := KeyOf(s.callers[id].cmd); k in s.records ==> RecordOk(s, k, s.records[k])
    ensures Refines(s, s', id, AtomicAt(s, Lookup(id, appNow)))
  {
  }

  lemma TryInsertRefines(s: State, s': State, id: nat, expiresAt: Time, lost: bool)
    requires Enabled(s, TryInsert(id, expiresAt, lost)) && s' == DoTryInsert(s, id, expiresAt, lost)
    ensures Refines(s, s', id, AtomicAt(s, TryInsert(id, expiresAt, lost)))
  {
  }

  lemma ReactivateRefines(s: State, s': State, id: nat, expiresAt: Time, lost: bool)
    requires Enabled(s, Reactivate(id, expiresAt, lost)) && s' == DoReactivate(s, id, expiresAt, lost)
    requires AnswersOk(s, s.callers[id])
    ensures Refines(s, s', id, AtomicAt(s, Reactivate(id, expiresAt, lost)))
  {
  }

  lemma TakeoverRefines(s: State, s': State, id: nat, expiresAt: Time, statementNow: Time, lost: bool)
    requires Enabled(s, Takeover(id, expiresAt, statementNow, lost))
    requires s' == DoTakeover(s, id, expiresAt, statementNow, lost) && AnswersOk(s, s.callers[id])
    ensures Refines(s, s', id, AtomicAt(s, Takeover(id, expiresAt, statementNow, lost)))
  {
  }

  lemma StepRefines(s: State, s': State, step: Step)
    requires Enabled(s, step) && AcquiringStep(step) && s' == Apply(s, step)
    requires AnswersOk(s, s.callers[step.id])
    requires var k := KeyOf(s.callers[step.id].cmd); k in s.records ==> RecordOk(s, k, s.records[k])
    ensures Refines(s, s', step.id, AtomicAt(s, step))
  {
    match step
    case Lookup(id, appNow) => LookupRefines(s, s', id, appNow);
    case TryInsert(id, expiresAt, lost) => TryInsertRefines(s, s', id, expiresAt, lost);
    case Reactivate(id, expiresAt, lost) => ReactivateRefines(s, s', id, expiresAt, lost);
    case Takeover(id, expiresAt, statementNow, lost) => TakeoverRefines(s, s', id, expiresAt, statementNow, lost);
  }

  // ----- one owner per token generation -----

  /** The row at `k` got a new token generation. */
  predicate NewGeneration(s: State, s': State, k: RecordKey) {
    k in s'.records && (k in s.records ==> s'.records[k].processingToken != s.records[k].processingToken)
  }

  /**
   A new token generation is the work of one acquiring write: its call, and no other, then holds the new token,
   unless the answer was lost and nobody does.
   */
  lemma GenerationStartsOneOwner(s: State, step: Step, k: RecordKey)
    requires Reachable(s) && Enabled(s, step) && NewGeneration(s, Apply(s, step), k)
    ensures step.TryInsert? || step.Reactivate? || step.Takeover?
    ensures KeyOf(s.callers[step.id].cmd) == k && s.callers[step.id].token.None?
    ensures var s' := Apply(s, step);
            forall d :: d in s'.callers ==>
              (s'.callers[d].token == Some(s'.records[k].processingToken) <==> d == step.id && !step.lost)
  {
    ReachableInv(s);
    var s' := Apply(s, step);
    GenerationStep(s, s', step, k);
    OthersHoldOlderTokens(s, s', step);
  }

  lemma OthersHoldOlderTokens(s: State, s': State, step: Step)
    requires CallersOk(s) && Effect(s, s', step) && Acquisition(step)
    ensures forall d :: d in s'.callers && d != step.id ==> s'.callers[d].token != Some(s.nextId)
  {
    forall d | d in s'.callers && d != step.id ensures s'.callers[d].token != Some(s.nextId) {
      assert CallerOk(s, s.callers[d]);
    }
  }

  lemma CommitRenewsNothing(s: State, s': State, id: nat, k: RecordKey)
    requires Installs(s, s', id)
    ensures !NewGeneration(s, s', k)
  {
  }

  lemma OnlyAcquisitionsRenew(s: State, s': State, step: Step, k: RecordKey)
    requires Effect(s, s', step) && NewGeneration(s, s', k)
    ensures Acquisition(step) && KeyOf(s.callers[step.id].cmd) == k
  {
    if step.DbCommit? { CommitRenewsNothing(s, s', step.id, k); }
  }

  lemma AcquisitionRenews(s: State, s': State, step: Step)
    requires Enabled(s, step) && s' == Apply(s, step) && Acquisition(step) && ControlOk(s.callers[step.id])
    requires NewGeneration(s, s', KeyOf(s.callers[step.id].cmd))
    ensures step.TryInsert? || step.Reactivate? || step.Takeover?
    ensures s.callers[step.id].token.None?
    ensures s'.records[KeyOf(s.callers[step.id].cmd)].processingToken == s.nextId
    ensures step.id in s'.callers && s'.callers[step.id].token == if step.lost then None else Some(s.nextId)
  {
  }

  lemma GenerationStep(s: State, s': State, step: Step, k: RecordKey)
    requires CallersOk(s) && EventIdsOk(s) && Enabled(s, step) && s' == Apply(s, step) && NewGeneration(s, s', k)
    ensures Effect(s, s', step)
    ensures step.TryInsert? || step.Reactivate? || step.Takeover?
    ensures KeyOf(s.callers[step.id].cmd) == k && s.callers[step.id].token.None?
    ensures s'.records[k].processingToken == s.nextId
    ensures step.id in s'.callers && s'.callers[step.id].token == if step.lost then None else Some(s.nextId)
  {
    StepEffect(s, s', step);
    OnlyAcquisitionsRenew(s, s', step, k);
    assert CallerOk(s, s.callers[step.id]);
    AcquisitionRenews(s, s', step);
  }

  /** Over a whole run a token belongs to one call, however the run goes on. */
  lemma TokensAreNotShared(run: seq<State>, i: nat, j: nat, a: nat, b: nat)
    requires IsRun(run) && i <= j < |run|
    requires a in run[i].callers && b in run[j].callers
    requires run[i].callers[a].token.Some? && run[i].callers[a].token == run[j].callers[b].token
    ensures a == b
  {
    RunGrows(run, i, j);
    RunInv(run, j);
    assert a != b ==> Apart(run[j].callers[a], run[j].callers[b]);
  }

  /** A PROCESSING record changes hands only strictly past its stored lease, by the database's clock. */
  lemma TakeoverOnlyPastLease(s: State, step: Step, k: RecordKey)
    requires Reachable(s) && Enabled(s, step)
    requires k in s.records && s.records[k].status == Processing && NewGeneration(s, Apply(s, step), k)
    ensures step.Takeover? && s.records[k].processingExpiresAt < step.statementNow <= s.now
    ensures Apply(s, step).records[k].resourceId == s.records[k].resourceId
  {
    GenerationStartsOneOwner(s, step, k);
    ReachableInv(s);
    assert CallerOk(s, s.callers[step.id]);
  }

  // ----- which requests meet -----

  /** Two requests share a record exactly if they are of one operation, on one merchant or payment, with one key. */
  lemma SameRecordIff(a: Command, b: Command)
    ensures KeyOf(a) == KeyOf(b) <==>
      && a.idempotencyKey == b.idempotencyKey
      && (|| (a.CreateCommand? && b.CreateCommand? && a.merchantId == b.merchantId)
          || (a.CaptureCommand? && b.CaptureCommand? && a.paymentId == b.paymentId))
  {
  }

  /** Sharing one, they are the same request exactly if a create's amount and currency agree too. */
  lemma SameRequestIff(a: Command, b: Command)
    requires KeyOf(a) == KeyOf(b)
    ensures RequestOf(a) == RequestOf(b) <==>
      (a.CreateCommand? ==> a.amountMinor == b.amountMinor && a.currency == b.currency)
  {
  }

  // ----- the lease -----

  /** What a lookup comes to, for a key that has no record, and for each state of one that has. */
  lemma LookupMeans(s: State, id: nat, appNow: Time)
    requires Reachable(s) && Enabled(s, Lookup(id, appNow))
    ensures var s' := Apply(s, Lookup(id, appNow));
            var c := s.callers[id];
            var k := KeyOf(c.cmd);
            && id in s'.callers && s' == s.(callers := s.callers[id := c.(phase := s'.callers[id].phase)])
            && var phase := s'.callers[id].phase;
               && (k !in s.records <==> phase == Inserting)
               && (k in s.records ==>
                     var r := s.records[k];
                     var same := r.requestHash == RequestOf(c.cmd);
                     && (!same <==> phase == Done(Err(KeyReusedWithDifferentRequest)))
                     && (same && r.status == Completed <==> phase.Done? && phase.outcome.Ok?)
                     && (phase.Done? && phase.outcome.Ok? ==> r.response == Some(phase.outcome.response))
                     && (same && r.status == Unsuccessful <==> phase == Reactivating)
                     && (same && r.status == Processing && r.processingExpiresAt <= appNow <==> phase == TakingOver)
                     && (phase == Done(Err(RequestInProgress)) <==>
                           same && r.status == Processing && appNow < r.processingExpiresAt))
  {
    ReachableInv(s);
    var c := s.callers[id];
    assert CallerOk(s, c);
    assert KeyOf(c.cmd) in s.records ==> RecordOk(s, KeyOf(c.cmd), s.records[KeyOf(c.cmd)]);
  }

  /** The call has become the owner of record `r` as of now: a fresh token, a new lease, the id reserved before. */
  predicate Owns(s: State, s': State, id: nat, r: Record, expiresAt: Time)
    requires id in s.callers
  {
    var c := s.callers[id];
    && s'.records == s.records[KeyOf(c.cmd) :=
         r.(status := Processing, processingToken := s.nextId, processingExpiresAt := expiresAt)]
    && id in s'.callers && s'.callers[id].token == Some(s.nextId) && s'.callers[id].resourceId == r.resourceId
    && s'.callers[id].phase == (if c.cmd.CreateCommand? then ReadyToAuthorize else ReadyToCapture)
  }

  predicate Refused(s: State, s': State, id: nat) {
    s'.records == s.records && id in s'.callers && s'.callers[id].phase == Done(Err(RequestInProgress))
  }

  /** A takeover wins exactly when the record is still PROCESSING for this request and its lease is past. */
  lemma TakeoverMeans(s: State, s': State, id: nat, expiresAt: Time, statementNow: Time)
    requires Reachable(s) && Enabled(s, Takeover(id, expiresAt, statementNow, false))
    requires s' == Apply(s, Takeover(id, expiresAt, statementNow, false))
    ensures KeyOf(s.callers[id].cmd) in s.records
    ensures var r := s.records[KeyOf(s.callers[id].cmd)];
            if r.status == Processing && r.processingExpiresAt < statementNow then Owns(s, s', id, r, expiresAt)
            else Refused(s, s', id)
  {
    ReachableInv(s);
    assert CallerOk(s, s.callers[id]);
  }

  /** A reactivation wins exactly when the record is still FAILED. */
  lemma ReactivateMeans(s: State, s': State, id: nat, expiresAt: Time)
    requires Reachable(s) && Enabled(s, Reactivate(id, expiresAt, false))
    requires s' == Apply(s, Reactivate(id, expiresAt, false))
    ensures KeyOf(s.callers[id].cmd) in s.records
    ensures var r := s.records[KeyOf(s.callers[id].cmd)];
            if r.status == Unsuccessful then Owns(s, s', id, r, expiresAt) else Refused(s, s', id)
  {
    ReachableInv(s);
    assert CallerOk(s, s.callers[id]);
  }

  /** An insert wins exactly when the key is free; it reserves a fresh payment id, or the payment being captured. */
  lemma TryInsertMeans(s: State, s': State, id: nat, expiresAt: Time)
    requires Reachable(s) && Enabled(s, TryInsert(id, expiresAt, false))
    requires s' == Apply(s, TryInsert(id, expiresAt, false))
    ensures var cmd := s.callers[id].cmd;
            if KeyOf(cmd) !in s.records then
              exists p: Id :: Owns(s, s', id, Record(RequestOf(cmd), Processing, p, s.nextId, expiresAt, None), expiresAt)
                && (if cmd.CaptureCommand? then p == cmd.paymentId else p >= s.nextId)
            else s'.records == s.records && id in s'.callers && s'.callers[id].phase == SecondLookup
  {
    var cmd := s.callers[id].cmd;
    if KeyOf(cmd) !in s.records {
      assert Owns(s, s', id, Record(RequestOf(cmd), Processing, ReservedId(s, cmd), s.nextId, expiresAt, None), expiresAt);
    }
  }

  /**
   A retry of a request whose owner is gone: if it looks the record up past the lease, and its takeover runs past the
   lease too with the record as it was, the call owns the record from then on.
   */
  lemma RetryTakesOver(run: seq<State>, i: nat, j: nat, id: nat, appNow: Time, expiresAt: Time, statementNow: Time)
    requires IsRun(run) && i < j && TakenAt(run, i, Lookup(id, appNow))
    requires TakenAt(run, j, Takeover(id, expiresAt, statementNow, false))
    requires var k := KeyOf(run[i].callers[id].cmd);
             && k in run[i].records && run[i].records[k].requestHash == RequestOf(run[i].callers[id].cmd)
             && run[i].records[k].status == Processing
             && run[i].records[k].processingExpiresAt <= appNow && run[i].records[k].processingExpiresAt < statementNow
             && k in run[j].records && run[j].records[k] == run[i].records[k]
    ensures id in run[i + 1].callers && run[i + 1].callers[id].phase == TakingOver
    ensures Owns(run[j], run[j + 1], id, run[i].records[KeyOf(run[i].callers[id].cmd)], expiresAt)
  {
    PrefixReachable(run, i);
    PrefixReachable(run, j);
    LookupMeans(run[i], id, appNow);
    RunGrows(run, i, j);
    TakeoverMeans(run[j], run[j + 1], id, expiresAt, statementNow);
  }

  // ----- IN_PROGRESS -----

  /** At instant `i` the call holds no token and its record is PROCESSING, hence under another call's token. */
  ghost predicate ProcessingUnderAnother(run: seq<State>, i: nat, id: nat)
    requires i < |run|
  {
    && id in run[i].callers && run[i].callers[id].token.None?
    && KeyOf(run[i].callers[id].cmd) in run[i].records
    && run[i].records[KeyOf(run[i].callers[id].cmd)].status == Processing
  }

  ghost predicate SeenProcessing(run: seq<State>, start: nat, end: nat, id: nat)
    requires end < |run|
  {
    exists i :: start <= i <= end && ProcessingUnderAnother(run, i, id)
  }

  predicate StillFailed(s: State, id: nat) {
    && id in s.callers
    && KeyOf(s.callers[id].cmd) in s.records
    && s.records[KeyOf(s.callers[id].cmd)].status == Unsuccessful
  }

  /** What the call's phase remembers of the rows it has read since it started. */
  ghost predicate Remembers(run: seq<State>, start: nat, j: nat, id: nat)
    requires j < |run|
  {
    && id in run[j].callers
    && (run[j].callers[id].phase.Reactivating? ==> StillFailed(run[j], id) || SeenProcessing(run, start, j, id))
    && (run[j].callers[id].phase.TakingOver? ==> SeenProcessing(run, start, j, id))
    && (run[j].callers[id].phase == Done(Err(RequestInProgress)) ==> SeenProcessing(run, start, j, id))
  }

  /** A record that is no longer FAILED after one step has become PROCESSING. */
  lemma FailedBecomesProcessing(s: State, s': State, step: Step, k: RecordKey)
    requires Effect(s, s', step)
    requires k in s.records && s.records[k].status == Unsuccessful
    ensures k in s'.records
    ensures s'.records[k].status == Unsuccessful || s'.records[k].status == Processing
  {
    if step.DbCommit? {
      CommitFindsNoFailed(s, s', step.id, k);
    } else if Acquisition(step) {
      AcquiringFindsFailed(s, s', step.id, k);
    }
  }

  lemma AcquiringFindsFailed(s: State, s': State, id: nat, k: RecordKey)
    requires WritesOne(s, s', id) && k in s.records && s.records[k].status == Unsuccessful
    ensures k in s'.records
    ensures s'.records[k].status == Unsuccessful || s'.records[k].status == Processing
  {
  }

  /** A committing call owns its record, which is PROCESSING. */
  lemma CommitFindsNoFailed(s: State, s': State, id: nat, k: RecordKey)
    requires Installs(s, s', id) && k in s.records && s.records[k].status == Unsuccessful
    ensures k in s'.records && s'.records[k] == s.records[k]
  {
  }

  /** How a call comes to one of the remembering phases. */
  predicate Recalled(s: State, s': State, id: nat)
    requires id in s.callers && id in s'.callers
  {
    var c, c' := s.callers[id], s'.callers[id];
    var k := KeyOf(c.cmd);
    || c'.phase == c.phase
    || (c'.phase.Reactivating? && StillFailed(s, id) && s'.records == s.records && c'.cmd == c.cmd)
    || (c.token.None? && k in s.records && s.records[k].status == Processing)
    || (c.phase.Reactivating? && !StillFailed(s, id))
    || c.phase.TakingOver?
  }

  lemma AcquiringRecalls(s: State, step: Step)
    requires Enabled(s, step) && AcquiringStep(step)
    requires ControlOk(s.callers[step.id]) && AnswersOk(s, s.callers[step.id])
    requires MayRemember(Apply(s, step).callers[step.id].phase)
    ensures Recalled(s, Apply(s, step), step.id)
  {
  }

  lemma ClosingForgets(s: State, step: Step, s': State)
    requires Enabled(s, step) && s' == Apply(s, step) && (step.DbCommit? || step.CloseFailed?)
    requires step.id in s'.callers
    requires AnswersOk(s, s.callers[step.id])
    ensures Forgets(s.callers[step.id], s'.callers[step.id])
  {
  }

  lemma OwnRecall(s: State, s': State, step: Step)
    requires Enabled(s, step) && s' == Apply(s, step) && Effect(s, s', step) && !step.Tick? && !step.Arrive?
    requires ControlOk(s.callers[step.id]) && AnswersOk(s, s.callers[step.id])
    requires step.id in s'.callers && MayRemember(s'.callers[step.id].phase)
    ensures Recalled(s, s', step.id)
  {
    if AcquiringStep(step) {
      AcquiringRecalls(s, step);
    } else if step.DbCommit? || step.CloseFailed? {
      ClosingForgets(s, step, s');
    }
  }

  lemma HowItRemembers(s: State, step: Step, s': State, id: nat)
    requires CallersOk(s) && Enabled(s, step) && s' == Apply(s, step) && Effect(s, s', step)
    requires id in s.callers && id in s'.callers && MayRemember(s'.callers[id].phase)
    ensures Recalled(s, s', id)
  {
    assert CallerOk(s, s.callers[id]);
    if step.Tick? || step.id != id {
      OthersStay(s, s', step, id);
    } else if !step.Arrive? {
      OwnRecall(s, s', step);
    }
  }

  lemma SeenLater(run: seq<State>, start: nat, j: nat, id: nat)
    requires start <= j < |run| - 1
    requires SeenProcessing(run, start, j, id)
    ensures SeenProcessing(run, start, j + 1, id)
  {
    var i :| start <= i <= j && ProcessingUnderAnother(run, i, id);
    assert ProcessingUnderAnother(run, i, id);
  }

  /** What one step does to the two facts a call can remember. */
  lemma RecallStep(s: State, step: Step, s': State, id: nat)
    requires Inv(s) && Enabled(s, step) && s' == Apply(s, step) && id in s.callers
    ensures id in s'.callers && s'.callers[id].cmd == s.callers[id].cmd
    ensures MayRemember(s'.callers[id].phase) ==> Recalled(s, s', id)
    ensures StillFailed(s, id) ==>
      var k := KeyOf(s.callers[id].cmd);
      k in s'.records && (s'.records[k].status == Unsuccessful || s'.records[k].status == Processing)
  {
    StepEffect(s, s', step);
    CallsStay(s, s', step, id);
    if MayRemember(s'.callers[id].phase) { HowItRemembers(s, step, s', id); }
    if StillFailed(s, id) { FailedBecomesProcessing(s, s', step, KeyOf(s.callers[id].cmd)); }
  }

  lemma CallsStay(s: State, s': State, step: Step, id: nat)
    requires Effect(s, s', step) && id in s.callers
    ensures id in s'.callers && s'.callers[id].cmd == s.callers[id].cmd
  {
  }

  lemma WaitingHoldsNoToken(s: State, id: nat)
    requires Inv(s) && id in s.callers && s.callers[id].phase.Reactivating?
    ensures s.callers[id].token.None?
  {
    assert CallerOk(s, s.callers[id]);
  }

  lemma RemembersOneMore(run: seq<State>, start: nat, j: nat, id: nat)
    requires IsRun(run) && start <= j < |run| - 1
    requires Remembers(run, start, j, id)
    ensures Remembers(run, start, j + 1, id)
  {
    var s, s' := run[j], run[j + 1];
    var step := StepAt(run, j);
    RunInv(run, j);
    RunInv(run, j + 1);
    RecallStep(s, step, s', id);
    if SeenProcessing(run, start, j, id) {
      SeenLater(run, start, j, id);
    } else if ProcessingUnderAnother(run, j, id) {
      SeenLater(run, start, j, id);
    } else if s'.callers[id].phase.Reactivating? && StillFailed(s, id) && !StillFailed(s', id) {
      WaitingHoldsNoToken(s', id);
      assert ProcessingUnderAnother(run, j + 1, id);
    }
  }

  lemma {:induction false} RemembersAlways(run: seq<State>, start: nat, j: nat, id: nat)
    requires IsRun(run) && start <= j < |run|
    requires Remembers(run, start, start, id)
    ensures Remembers(run, start, j, id)
    decreases j - start
  {
    if start < j {
      RemembersAlways(run, start, j - 1, id);
      RemembersOneMore(run, start, j - 1, id);
    }
  }

  /**
   A call answered IN_PROGRESS: at some instant between its start and its answer, its record was PROCESSING
   under a token that was not its own.
   */
  lemma InProgressWasTrue(run: seq<State>, start: nat, end: nat, id: nat)
    requires IsRun(run) && start <= end < |run|
    requires id in run[start].callers && run[start].callers[id].phase == FirstLookup
    requires id in run[end].callers && run[end].callers[id].phase == Done(Err(RequestInProgress))
    ensures exists i :: start <= i <= end && ProcessingUnderAnother(run, i, id)
  {
    RemembersAlways(run, start, end, id);
  }
}
