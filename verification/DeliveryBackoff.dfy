/**
 The backoff is about rows: what a publish ended in is what its committed poll made of the row, the waits an event has
 been given are its schedule's, and no worker fetches it before they are over.
 */
module DeliveryBackoff {
  import opened Options
  import opened Payments
  import opened RetryDelay
  import opened Outbox
  import opened Delivery
  import opened DeliveryRuns
  import opened DeliveryTheorems
  import M = Messaging

  /** `step` is one the run takes at `i`. */
  ghost predicate TakenAt(run: seq<State>, i: int, step: Step) {
    0 <= i < |run| - 1 && Enabled(run[i], step) && run[i + 1] == Apply(run[i], step)
  }

  // ----- what a poll has recorded stays -----

  /** What a poll has recorded it keeps; once committed, it records nothing more. */
  predicate RecordsKept(a: Poll, b: Poll) {
    && b.process == a.process && b.batch == a.batch && a.done <= b.done
    && (a.txn == Committed ==> b.txn == Committed && b.writes == a.writes && b.answers == a.answers)
    && (a.done <= |a.batch| ==>
          forall id :: id in a.answers && id in a.batch[..a.done] ==> id in b.answers && b.answers[id] == a.answers[id])
  }

  lemma RecordKeeps(s: State, q: nat, answer: Answer)
    requires PollsOk(s) && q in s.polls && s.polls[q].txn == Open && s.polls[q].current.Some?
    requires s.polls[q].done < |s.polls[q].batch| && s.polls[q].batch[s.polls[q].done] in s.rows
    ensures RecordsKept(s.polls[q], Noted(s, s.polls[q], answer))
  {
    assert PollOk(s, q);
  }

  lemma OwnRecordsKept(s: State, s': State, step: Step)
    requires OfPoll(step) && !step.Fetch?
    requires PollsOk(s) && Enabled(s, step) && s' == Apply(s, step)
    ensures step.q in s.polls && step.q in s'.polls && s'.polls == s.polls[step.q := s'.polls[step.q]]
    ensures RecordsKept(s.polls[step.q], s'.polls[step.q])
  {
    match step
    case Publish(q, accepted) =>
    case PollThrows(q) =>
    case Record(q, clock, databaseNow, error) =>
      var heard := Heard(ResultOf(s, q).value, clock, databaseNow, error);
      if heard.Some? { RecordKeeps(s, q, heard.value); }
    case RecordFails(q) =>
    case SendCommit(q) =>
  }

  lemma OutsideRecordsKept(s: State, s': State, step: Step, q: nat)
    requires !OfPoll(step) || step.Fetch?
    requires Enabled(s, step) && s' == Apply(s, step) && q in s.polls
    ensures q in s'.polls && RecordsKept(s.polls[q], s'.polls[q])
  {
  }

  lemma StepKeepsRecords(s: State, s': State, step: Step, q: nat)
    requires PollsOk(s) && Enabled(s, step) && s' == Apply(s, step) && q in s.polls
    ensures q in s'.polls && RecordsKept(s.polls[q], s'.polls[q])
  {
    if OfPoll(step) && !step.Fetch? { OwnRecordsKept(s, s', step); } else { OutsideRecordsKept(s, s', step, q); }
  }

  /** Poll `q` has recorded `answer` for `e`. */
  predicate HasAnswer(s: State, q: nat, e: Id, answer: Answer) {
    && q in s.polls && s.polls[q].done <= |s.polls[q].batch| && e in s.polls[q].batch[..s.polls[q].done]
    && e in s.polls[q].answers && s.polls[q].answers[e] == answer
  }

  lemma AnswerStays(s: State, s': State, q: nat, e: Id, answer: Answer)
    requires HasAnswer(s, q, e, answer) && q in s'.polls && RecordsKept(s.polls[q], s'.polls[q])
    requires s'.polls[q].done <= |s'.polls[q].batch|
    ensures HasAnswer(s', q, e, answer)
  {
    var i :| 0 <= i < s.polls[q].done && s.polls[q].batch[i] == e;
    assert s'.polls[q].batch[..s'.polls[q].done][i] == e;
  }

  lemma {:induction false} AnswerKept(run: seq<State>, i: nat, j: nat, q: nat, e: Id, answer: Answer)
    requires IsRun(run) && i <= j < |run| && HasAnswer(run[i], q, e, answer)
    ensures HasAnswer(run[j], q, e, answer)
    decreases j - i
  {
    if i < j {
      AnswerKept(run, i, j - 1, q, e, answer);
      RunKeepsRecords(run, j - 1, q);
      AnswerStays(run[j - 1], run[j], q, e, answer);
    }
  }

  lemma RunKeepsRecords(run: seq<State>, i: nat, q: nat)
    requires IsRun(run) && i < |run| - 1 && q in run[i].polls
    ensures q in run[i + 1].polls && RecordsKept(run[i].polls[q], run[i + 1].polls[q])
    ensures run[i + 1].polls[q].done <= |run[i + 1].polls[q].batch|
  {
    RunInv(run, i);
    assert Linked(run, i);
    var step :| Enabled(run[i], step) && run[i + 1] == Apply(run[i], step);
    StepKeepsRecords(run[i], run[i + 1], step, q);
    DoneInBatch(run, i + 1, q);
  }

  lemma DoneInBatch(run: seq<State>, i: nat, q: nat)
    requires IsRun(run) && i < |run| && q in run[i].polls
    ensures run[i].polls[q].done <= |run[i].polls[q].batch|
  {
    RunInv(run, i);
    assert PollOk(run[i], q);
  }

  // ----- from the publish to the row -----

  /** What the worker makes of a publish that ended in `result`: its own clock and error, the database's now. */
  predicate Says(answer: Answer, result: M.Result, clock: Time, databaseNow: Time, error: string) {
    && answer.clock == clock && answer.databaseNow == databaseNow && !answer.updateFails
    && (result.Confirmed? <==> answer.outcome.Confirmed?)
    && (result.Rejected? <==> answer.outcome == Outbox.Rejected(error))
  }

  lemma RecordSays(s: State, s': State, q: nat, clock: Time, databaseNow: Time, error: string) returns (answer: Answer)
    requires PollsOk(s) && Enabled(s, Record(q, clock, databaseNow, error)) && ResultOf(s, q) != Some(M.NotAttempted)
    requires s' == DoRecord(s, q, clock, databaseNow, error)
    ensures HasAnswer(s', q, s.polls[q].batch[s.polls[q].done], answer)
    ensures Says(answer, ResultOf(s, q).value, clock, databaseNow, error)
  {
    var poll := s.polls[q];
    answer := s'.polls[q].answers[poll.batch[poll.done]];
    assert s'.polls[q].batch[..poll.done + 1][poll.done] == poll.batch[poll.done];
  }

  /** What a publish that ended in `result` makes of its row. */
  predicate Comes(row: OutboxEvent, row': OutboxEvent, config: Config, result: M.Result, clock: Time, databaseNow: Time,
                  error: string) {
    && (result.Confirmed? ==>
          row'.status == Published && row'.publishedAt == Some(databaseNow) && row'.attempts == row.attempts)
    && (result.Rejected? ==>
          && row'.attempts == row.attempts + 1 && row'.lastError == Some(error)
          && if row.attempts + 1 >= config.maxAttempts then row'.status == Exhausted && row'.nextRetryAt.None?
             else
               && row'.status == Pending && row'.nextRetryAt.Some?
               && IsBackoff(row'.nextRetryAt.value - clock, config, row.attempts))
  }

  lemma CommitHandles(s: State, s': State, q: nat, e: Id, answer: Answer)
    requires Inv(s) && Enabled(s, DbCommit(q)) && s' == DoDbCommit(s, q) && HasAnswer(s, q, e, answer)
    ensures e in s.rows && e in s'.rows && HandledAs(s.rows[e], s'.rows[e], answer, s.config)
  {
    assert PollOk(s, q);
    CommittingPoll(s, q);
    OutcomeHandles(s.rows[e], answer, s.config);
  }

  lemma HandledComes(row: OutboxEvent, row': OutboxEvent, config: Config, answer: Answer, result: M.Result, clock: Time,
                     databaseNow: Time, error: string)
    requires HandledAs(row, row', answer, config) && Says(answer, result, clock, databaseNow, error)
    ensures Comes(row, row', config, result, clock, databaseNow, error)
  {
  }

  /**
   The outcome of a publish, recorded at one step and committed at a later one: a confirmed event is PUBLISHED at the
   recorded instant; a rejected one has one attempt more, the error that was recorded, and ends at its last attempt or
   waits its backoff from the recorded clock.
   */
  lemma OutcomeIsCommitted(run: seq<State>, i: nat, k: nat, q: nat, clock: Time, databaseNow: Time, error: string)
      returns (e: Id)
    requires IsRun(run) && i < k && TakenAt(run, i, Record(q, clock, databaseNow, error))
    requires TakenAt(run, k, DbCommit(q)) && ResultOf(run[i], q) != Some(M.NotAttempted)
    ensures e == run[i].polls[q].batch[run[i].polls[q].done] && e in run[k].rows && e in run[k + 1].rows
    ensures Comes(run[k].rows[e], run[k + 1].rows[e], run[k].config, ResultOf(run[i], q).value, clock, databaseNow, error)
  {
    e := run[i].polls[q].batch[run[i].polls[q].done];
    RunInv(run, i);
    var answer := RecordSays(run[i], run[i + 1], q, clock, databaseNow, error);
    AnswerKept(run, i + 1, k, q, e, answer);
    RunInv(run, k);
    CommitHandles(run[k], run[k + 1], q, e, answer);
    HandledComes(run[k].rows[e], run[k + 1].rows[e], run[k].config, answer, ResultOf(run[i], q).value, clock, databaseNow,
                 error);
  }

  /** A worker fetches no event before its wait is over. */
  lemma FetchWaits(s: State, q: nat, p: nat, at: Time, e: Id)
    requires Enabled(s, Fetch(q, p, at)) && e in s.rows
    requires s.rows[e].nextRetryAt.Some? && at < s.rows[e].nextRetryAt.value
    ensures e !in DoFetch(s, q, p, at).polls[q].batch
  {
    BatchIsBatch(s.rows, Candidates(s.rows, Locked(s), at), s.config.batchSize);
  }

  // ----- the waits of one event -----

  /** The failure of `e` that poll `q` committed: its ordinal, and the wait it imposed by the failing process's clock. */
  predicate FailedAs(s: State, q: nat, e: Id, ordinal: nat) {
    && q in s.polls && s.polls[q].txn == Committed && e in s.polls[q].writes && e in s.polls[q].answers
    && s.polls[q].writes[e].attempts == ordinal
    && if ordinal < s.config.maxAttempts then
         && s.polls[q].writes[e].nextRetryAt.Some?
         && ordinal > 0 && IsBackoff(WaitOf(s.polls[q], e), s.config, ordinal - 1)
       else s.polls[q].writes[e].nextRetryAt.None?
  }

  function WaitOf(poll: Poll, e: Id): int {
    if e in poll.writes && e in poll.answers && poll.writes[e].nextRetryAt.Some?
    then poll.writes[e].nextRetryAt.value - poll.answers[e].clock else 0
  }

  function OrdinalOf(poll: Poll, e: Id): nat {
    if e in poll.writes then poll.writes[e].attempts else 0
  }

  /** The failures on record are numbered apart, up to the attempts the row shows, and each imposed its own wait. */
  ghost predicate Scheduled(s: State, e: Id)
    requires e in s.rows
  {
    Numbered(s, e) && LatestShows(s, e)
  }

  ghost predicate Numbered(s: State, e: Id)
    requires e in s.rows
  {
    && (forall q :: q in FailuresOf(s, e) ==>
          && q in s.polls && 1 <= OrdinalOf(s.polls[q], e) <= s.rows[e].attempts
          && FailedAs(s, q, e, OrdinalOf(s.polls[q], e)))
    && (forall q, r :: q in FailuresOf(s, e) && r in FailuresOf(s, e) && q != r ==>
          q in s.polls && r in s.polls && OrdinalOf(s.polls[q], e) != OrdinalOf(s.polls[r], e))
  }

  ghost predicate LatestShows(s: State, e: Id)
    requires e in s.rows
  {
    s.rows[e].attempts > 0 && s.rows[e].status == Pending ==>
      exists q :: q in FailuresOf(s, e) && q in s.polls && e in s.polls[q].writes && s.polls[q].writes[e] == s.rows[e]
  }

  ghost predicate AllScheduled(s: State) {
    forall e {:trigger Scheduled(s, e)} :: e in s.rows ==> Scheduled(s, e)
  }

  /** Committed polls stay, so does what they say of an event whose row and failures stay. */
  lemma ScheduleKept(s: State, s': State, e: Id)
    requires e in s.rows && e in s'.rows && s'.rows[e] == s.rows[e] && s'.config == s.config && Scheduled(s, e)
    requires FailuresOf(s', e) == FailuresOf(s, e)
    requires forall q :: q in s.polls ==> q in s'.polls && RecordsKept(s.polls[q], s'.polls[q])
    ensures Scheduled(s', e)
  {
    EarlierFailures(s, s', e);
  }

  /** The failures on record before a commit are on record as they were. */
  lemma EarlierFailures(s: State, s': State, e: Id)
    requires e in s.rows && Numbered(s, e) && s'.config == s.config
    requires forall r :: r in s.polls ==> r in s'.polls && RecordsKept(s.polls[r], s'.polls[r])
    ensures forall r :: r in FailuresOf(s, e) ==>
      && r in s.polls && r in s'.polls && OrdinalOf(s'.polls[r], e) == OrdinalOf(s.polls[r], e)
      && FailedAs(s', r, e, OrdinalOf(s'.polls[r], e))
  {
    forall r | r in FailuresOf(s, e)
      ensures r in s.polls && r in s'.polls && OrdinalOf(s'.polls[r], e) == OrdinalOf(s.polls[r], e)
      ensures FailedAs(s', r, e, OrdinalOf(s'.polls[r], e))
    {
      assert FailedAs(s, r, e, OrdinalOf(s.polls[r], e));
    }
  }

  /** A commit that records a failure of `e` numbers it next. */
  lemma NextFailure(s: State, s': State, q: nat, e: Id)
    requires Commits(s, s', q) && e in s.polls[q].writes && WriteOk(s, q, e) && s.polls[q].writes[e].status != Published
    ensures e in s'.rows && s'.rows[e] == s'.polls[q].writes[e] && s'.rows[e].attempts == s.rows[e].attempts + 1
    ensures OrdinalOf(s'.polls[q], e) == s.rows[e].attempts + 1
    ensures FailedAs(s', q, e, s.rows[e].attempts + 1)
  {
    OutcomeHandles(s.rows[e], s.polls[q].answers[e], s.config);
  }

  lemma FailureNumbered(s: State, s': State, q: nat, e: Id)
    requires e in s.rows && e in s'.rows && Numbered(s, e) && FailuresOf(s', e) == FailuresOf(s, e) + {q}
    requires s'.rows[e].attempts == s.rows[e].attempts + 1 && s'.config == s.config
    requires q in s'.polls && OrdinalOf(s'.polls[q], e) == s.rows[e].attempts + 1
    requires FailedAs(s', q, e, s.rows[e].attempts + 1)
    requires forall r :: r in s.polls ==> r in s'.polls && RecordsKept(s.polls[r], s'.polls[r])
    ensures Numbered(s', e)
  {
    EarlierFailures(s, s', e);
  }

  lemma FailureScheduled(s: State, s': State, q: nat, e: Id)
    requires Commits(s, s', q) && e in s.polls[q].writes && WriteOk(s, q, e) && s.polls[q].writes[e].status != Published
    requires Scheduled(s, e) && forall r :: r in s.polls ==> r in s'.polls && RecordsKept(s.polls[r], s'.polls[r])
    ensures e in s'.rows && Scheduled(s', e)
  {
    CommitFailures(s, s', q, e);
    NextFailure(s, s', q, e);
    FailureNumbered(s, s', q, e);
    assert q in FailuresOf(s', e);
  }

  lemma PublicationScheduled(s: State, s': State, q: nat, e: Id)
    requires Commits(s, s', q) && e in s.polls[q].writes && WriteOk(s, q, e) && s.polls[q].writes[e].status == Published
    requires Scheduled(s, e) && forall r :: r in s.polls ==> r in s'.polls && RecordsKept(s.polls[r], s'.polls[r])
    ensures e in s'.rows && Scheduled(s', e)
  {
    OutcomeHandles(s.rows[e], s.polls[q].answers[e], s.config);
    CommitFailures(s, s', q, e);
    EarlierFailures(s, s', e);
  }

  lemma CommitScheduled(s: State, s': State, q: nat, e: Id)
    requires Inv(s) && AllScheduled(s) && Commits(s, s', q) && e in s'.rows
    requires forall r :: r in s.polls ==> r in s'.polls && RecordsKept(s.polls[r], s'.polls[r])
    ensures Scheduled(s', e)
  {
    assert PollOk(s, q);
    assert e in s.polls[q].writes ==> WriteOk(s, q, e);
    assert Scheduled(s, e);
    CommitFailures(s, s', q, e);
    if e !in s.polls[q].writes {
      ScheduleKept(s, s', e);
    } else if s.polls[q].writes[e].status == Published {
      PublicationScheduled(s, s', q, e);
    } else {
      FailureScheduled(s, s', q, e);
    }
  }

  lemma QuietFailures(s: State, s': State, step: Step)
    requires Enabled(s, step) && s' == Apply(s, step) && !step.DbCommit?
    ensures s'.failedBy == s.failedBy && s'.config == s.config
  {
    if OfPoll(step) { PollFailures(s, s', step); }
  }

  lemma PollFailures(s: State, s': State, step: Step)
    requires OfPoll(step) && Enabled(s, step) && s' == Apply(s, step)
    ensures s'.failedBy == s.failedBy && s'.config == s.config
  {
    match step
    case Fetch(q, p, at) =>
    case Publish(q, accepted) =>
    case PollThrows(q) =>
    case Record(q, clock, databaseNow, error) =>
    case RecordFails(q) =>
    case SendCommit(q) =>
  }

  lemma FailureHasRow(s: State, e: Id, q: nat)
    requires HistoryOk(s, e) && q in FailuresOf(s, e)
    ensures e in s.rows
  {
    assert Backed(s, q, e, M.Rejected);
  }

  lemma NewHasNoFailures(s: State, e: Id)
    requires HistoryOk(s, e) && e !in s.rows
    ensures FailuresOf(s, e) == {}
  {
    if q :| q in FailuresOf(s, e) { FailureHasRow(s, e, q); }
  }

  lemma QuietScheduled(s: State, s': State, step: Step, e: Id)
    requires Inv(s) && AllScheduled(s) && Enabled(s, step) && s' == Apply(s, step) && !step.DbCommit? && e in s'.rows
    requires forall r :: r in s.polls ==> r in s'.polls && RecordsKept(s.polls[r], s'.polls[r])
    ensures Scheduled(s', e)
  {
    QuietFailures(s, s', step);
    if s'.rows != s.rows { OnlyCommitsChangeRows(s, s', step); }
    if e in s.rows {
      assert Scheduled(s, e);
      ScheduleKept(s, s', e);
    } else {
      assert HistoryOk(s, e);
      NewHasNoFailures(s, e);
    }
  }

  lemma StepKeepsSchedule(s: State, s': State, step: Step)
    requires Inv(s) && AllScheduled(s) && Enabled(s, step) && s' == Apply(s, step)
    ensures AllScheduled(s')
  {
    forall r | r in s.polls ensures r in s'.polls && RecordsKept(s.polls[r], s'.polls[r]) {
      StepKeepsRecords(s, s', step, r);
    }
    forall e | e in s'.rows ensures Scheduled(s', e) {
      if step.DbCommit? { CommitScheduled(s, s', step.q, e); } else { QuietScheduled(s, s', step, e); }
    }
  }

  lemma {:induction false} RunScheduled(run: seq<State>, i: nat)
    requires IsRun(run) && i < |run|
    ensures AllScheduled(run[i])
  {
    if i > 0 {
      RunScheduled(run, i - 1);
      RunInv(run, i - 1);
      assert Linked(run, i - 1);
      var step :| Enabled(run[i - 1], step) && run[i] == Apply(run[i - 1], step);
      StepKeepsSchedule(run[i - 1], run[i], step);
    }
  }

  lemma ReachableScheduled(s: State, e: Id)
    requires Reachable(s) && e in s.rows
    ensures Scheduled(s, e) && RowOk(s, e) && ValidConfig(s.config)
  {
    var run :| IsRun(run) && run[|run| - 1] == s;
    RunScheduled(run, |run| - 1);
    RunInv(run, |run| - 1);
    assert Scheduled(s, e) && RowOk(s, e);
  }

  // ----- in total -----

  /** All the waits a set of failures of `e` has imposed. */
  ghost function WaitsOf(s: State, qs: set<nat>, e: Id): int
    requires qs <= s.polls.Keys
  {
    if qs == {} then 0
    else
      var q :| q in qs;
      WaitOf(s.polls[q], e) + WaitsOf(s, qs - {q}, e)
  }

  lemma {:induction false} WaitsWithout(s: State, qs: set<nat>, e: Id, r: nat)
    requires qs <= s.polls.Keys && r in qs
    ensures WaitsOf(s, qs, e) == WaitOf(s.polls[r], e) + WaitsOf(s, qs - {r}, e)
    decreases |qs|
  {
    var q :| q in qs && WaitsOf(s, qs, e) == WaitOf(s.polls[q], e) + WaitsOf(s, qs - {q}, e);
    if q != r {
      WaitsWithout(s, qs - {q}, e, r);
      WaitsWithout(s, qs - {r}, e, q);
      assert qs - {q} - {r} == qs - {r} - {q};
    }
  }

  /** Failures numbered apart, up to `n`: each imposes the wait of its number, so together at most the first `n`. */
  ghost predicate NumberedUpTo(s: State, qs: set<nat>, e: Id, n: nat) {
    && qs <= s.polls.Keys
    && (forall q :: q in qs ==> 1 <= OrdinalOf(s.polls[q], e) <= n && FailedAs(s, q, e, OrdinalOf(s.polls[q], e)))
    && (forall q, r :: q in qs && r in qs && q != r ==> OrdinalOf(s.polls[q], e) != OrdinalOf(s.polls[r], e))
  }

  lemma SomeNumber(s: State, qs: set<nat>, e: Id, n: nat, q: nat)
    requires NumberedUpTo(s, qs, e, n) && q in qs
    ensures n >= 1
  {
    assert 1 <= OrdinalOf(s.polls[q], e) <= n;
  }

  lemma Fewer(s: State, qs: set<nat>, e: Id, n: nat, q: nat)
    requires NumberedUpTo(s, qs, e, n) && n > 0 && q in qs && OrdinalOf(s.polls[q], e) == n
    ensures NumberedUpTo(s, qs - {q}, e, n - 1)
  {
  }

  lemma AsMany(s: State, qs: set<nat>, e: Id, n: nat)
    requires NumberedUpTo(s, qs, e, n) && n > 0 && forall q :: q in qs ==> OrdinalOf(s.polls[q], e) != n
    ensures NumberedUpTo(s, qs, e, n - 1)
  {
  }

  lemma Imposes(s: State, qs: set<nat>, e: Id, n: nat, q: nat)
    requires ValidConfig(s.config) && NumberedUpTo(s, qs, e, n) && 0 < n < s.config.maxAttempts
    requires q in qs && OrdinalOf(s.polls[q], e) == n
    ensures WaitOf(s.polls[q], e) == DelayFor(s.config.retryBaseDelayMs, s.config.retryMaxDelayMs, n - 1)
  {
    BackoffIs(WaitOf(s.polls[q], e), s.config, n - 1);
  }

  /** The last failure of all imposes no wait. */
  lemma LastImposesNone(s: State, q: nat, e: Id)
    requires FailedAs(s, q, e, s.config.maxAttempts)
    ensures WaitOf(s.polls[q], e) == 0
  {
  }

  lemma {:induction false} WaitsAdd(s: State, qs: set<nat>, e: Id, n: nat)
    requires ValidConfig(s.config) && NumberedUpTo(s, qs, e, n) && n < s.config.maxAttempts
    ensures 0 <= WaitsOf(s, qs, e) <= TotalDelay(s.config.retryBaseDelayMs, s.config.retryMaxDelayMs, n)
    decreases n
  {
    if n == 0 {
      if q :| q in qs { SomeNumber(s, qs, e, n, q); }
    } else {
      DelayBoundedMonotone(s.config.retryBaseDelayMs, s.config.retryMaxDelayMs, n - 1, n - 1);
      if q :| q in qs && OrdinalOf(s.polls[q], e) == n {
        WaitsWithout(s, qs, e, q);
        Imposes(s, qs, e, n, q);
        Fewer(s, qs, e, n, q);
        WaitsAdd(s, qs - {q}, e, n - 1);
      } else {
        AsMany(s, qs, e, n);
        WaitsAdd(s, qs, e, n - 1);
      }
    }
  }

  /** Including the failure that ended the event, which imposes none. */
  lemma WaitsBounded(s: State, qs: set<nat>, e: Id)
    requires ValidConfig(s.config) && NumberedUpTo(s, qs, e, s.config.maxAttempts)
    ensures 0 <= WaitsOf(s, qs, e)
         <= TotalDelay(s.config.retryBaseDelayMs, s.config.retryMaxDelayMs, s.config.maxAttempts - 1)
  {
    var n := s.config.maxAttempts;
    if q :| q in qs && OrdinalOf(s.polls[q], e) == n {
      WaitsWithout(s, qs, e, q);
      LastImposesNone(s, q, e);
      Fewer(s, qs, e, n, q);
      WaitsAdd(s, qs - {q}, e, n - 1);
    } else {
      AsMany(s, qs, e, n);
      WaitsAdd(s, qs, e, n - 1);
    }
  }

  /** A PENDING event that has failed waits the backoff of its attempts from the clock of its last failure. */
  lemma PendingWaitsItsBackoff(s: State, e: Id) returns (q: nat)
    requires Reachable(s) && e in s.rows && s.rows[e].status == Pending && s.rows[e].attempts > 0
    ensures q in FailuresOf(s, e) && q in s.polls && e in s.polls[q].answers
    ensures s.rows[e].nextRetryAt.Some?
    ensures IsBackoff(s.rows[e].nextRetryAt.value - s.polls[q].answers[e].clock, s.config, s.rows[e].attempts - 1)
  {
    ReachableScheduled(s, e);
    q :| q in FailuresOf(s, e) && q in s.polls && e in s.polls[q].writes && s.polls[q].writes[e] == s.rows[e];
    assert FailedAs(s, q, e, OrdinalOf(s.polls[q], e));
  }

  /**
   Over all its failures, by whichever workers, an event is made to wait no longer than its schedule: base, twice base
   and so on up to the last attempt but one, and so at most (maxAttempts - 1) maximal delays.
   */
  lemma EventsWaitTheirSchedule(s: State, e: Id)
    requires Reachable(s) && e in s.rows
    ensures FailuresOf(s, e) <= s.polls.Keys && s.config.maxAttempts > 0
    ensures 0 <= WaitsOf(s, FailuresOf(s, e), e)
         <= TotalDelay(s.config.retryBaseDelayMs, s.config.retryMaxDelayMs, s.config.maxAttempts - 1)
         <= (s.config.maxAttempts - 1) * s.config.retryMaxDelayMs
  {
    ReachableScheduled(s, e);
    WaitsBounded(s, FailuresOf(s, e), e);
    TotalDelayBounded(s.config.retryBaseDelayMs, s.config.retryMaxDelayMs, s.config.maxAttempts);
  }
}
