/** What the outbox table says about delivery is true of the broker, in every reachable state of any number of workers. */
module DeliveryTheorems {
  import opened Options
  import opened Payments
  import opened Outbox
  import opened OutboxProgress
  import opened Delivery
  import opened DeliverySteps
  import opened DeliveryRuns
  import M = Messaging
  import Sets

  lemma ReachableInv(s: State)
    requires Reachable(s)
    ensures Inv(s)
  {
    var run :| IsRun(run) && run[|run| - 1] == s;
    RunInv(run, |run| - 1);
  }

  lemma ReachesNext(s: State, step: Step)
    requires Reachable(s) && Enabled(s, step)
    ensures Reachable(Apply(s, step))
  {
    var s' := Apply(s, step);
    var run :| IsRun(run) && run[|run| - 1] == s;
    var longer := run + [s'];
    forall i | 0 <= i < |longer| - 1 ensures Linked(longer, i) {
      if i < |run| - 1 {
        assert Linked(run, i);
      } else {
        assert Next(s, s');
      }
    }
    assert IsRun(longer) && longer[|longer| - 1] == s';
  }

  /** An event is PUBLISHED only if the broker confirmed, and never returned, a publish of exactly its own message. */
  lemma PublishedWasRouted(s: State, id: Id) returns (p: nat, a: nat)
    requires Reachable(s) && id in s.rows && s.rows[id].status == Published
    ensures p in s.links && a < |s.links[p].attempts|
    ensures var attempt := s.links[p].attempts[a];
            && attempt.message == M.Message(id, s.rows[id].routingKey, s.rows[id].payload)
            && attempt.acked && !attempt.returned && attempt.result == Some(M.Confirmed)
  {
    ReachableInv(s);
    assert RowOk(s, id) && HistoryOk(s, id);
    var q := s.publishedBy[id];
    p, a := s.polls[q].process, s.polls[q].used[id];
    assert LinkQuiet(s, p) && M.AttemptOk(s.links[p], s.links[p].attempts[a]);
  }

  /** All copies of an event the broker ever saw, from any process, are the row's own message. */
  lemma CopiesAgree(s: State, p: nat, a: nat, r: nat, b: nat)
    requires Reachable(s) && p in s.links && a < |s.links[p].attempts| && r in s.links && b < |s.links[r].attempts|
    requires s.links[p].attempts[a].message.id == s.links[r].attempts[b].message.id
    ensures s.links[p].attempts[a].message == s.links[r].attempts[b].message
    ensures s.links[p].attempts[a].message.id in s.rows
    ensures s.links[p].attempts[a].message == MessageOf(s.rows[s.links[p].attempts[a].message.id])
  {
    ReachableInv(s);
    assert LinkFaithful(s, p) && LinkFaithful(s, r);
    assert Faithful(s, s.links[p].attempts[a].message) && Faithful(s, s.links[r].attempts[b].message);
  }

  /** PENDING means attempts are left; FAILED means exactly all were used; the count is that of the recorded failures. */
  lemma StatusTellsAttempts(s: State, id: Id)
    requires Reachable(s) && id in s.rows
    ensures s.rows[id].status == Pending ==> s.rows[id].attempts < s.config.maxAttempts
    ensures s.rows[id].status == Exhausted ==> s.rows[id].attempts == s.config.maxAttempts
    ensures s.rows[id].status == Published ==> s.rows[id].attempts < s.config.maxAttempts
    ensures s.rows[id].attempts == |FailuresOf(s, id)|
    ensures s.rows[id].status == Published <==> id in s.publishedBy
  {
    ReachableInv(s);
    assert RowOk(s, id);
  }

  // ----- recorded attempts are real -----

  /** The publishes of one event that really ended in a rejection, over all processes. */
  function RejectedAttempts(s: State, id: Id): set<(nat, nat)> {
    set p, a | p in s.links && 0 <= a < |s.links[p].attempts| && s.links[p].attempts[a].message.id == id
               && s.links[p].attempts[a].result == Some(M.Rejected) :: (p, a)
  }

  ghost predicate Witnessed(s: State, id: Id, qs: set<nat>) {
    && (forall q :: q in qs ==> Backed(s, q, id, M.Rejected))
    && (forall q, r :: q in qs && r in qs && q != r ==> Behind(s, q, id) != Behind(s, r, id))
  }

  /** The attempt behind a recorded outcome. */
  function Behind(s: State, q: nat, id: Id): (nat, nat) {
    if q in s.polls && id in s.polls[q].used then (s.polls[q].process, s.polls[q].used[id]) else (0, 0)
  }

  function Evidence(s: State, id: Id, qs: set<nat>): set<(nat, nat)> {
    set q | q in qs :: Behind(s, q, id)
  }

  lemma {:induction false} EvidenceCounts(s: State, id: Id, qs: set<nat>)
    requires Witnessed(s, id, qs)
    ensures |Evidence(s, id, qs)| == |qs|
    decreases |qs|
  {
    if qs == {} {
      assert Evidence(s, id, qs) == {};
    } else {
      var q :| q in qs;
      var rest := qs - {q};
      EvidenceCounts(s, id, rest);
      assert Evidence(s, id, qs) == Evidence(s, id, rest) + {Behind(s, q, id)};
      assert Behind(s, q, id) !in Evidence(s, id, rest);
    }
  }

  lemma FailuresWitnessed(s: State, id: Id)
    requires Inv(s)
    ensures Witnessed(s, id, FailuresOf(s, id))
  {
    assert HistoryOk(s, id);
    forall q, r | q in FailuresOf(s, id) && r in FailuresOf(s, id) && q != r
      ensures Behind(s, q, id) != Behind(s, r, id)
    {
      assert Backed(s, q, id, M.Rejected) && Backed(s, r, id, M.Rejected);
      assert PollsApart(s.polls[q], s.polls[r]);
      assert s.polls[q].used[id] in Touched(s.polls[q]) && s.polls[r].used[id] in Touched(s.polls[r]);
    }
  }

  lemma EvidenceIsRejected(s: State, id: Id)
    requires HistoryOk(s, id) && id in s.rows && s.rows[id].id == id
    ensures Evidence(s, id, FailuresOf(s, id)) <= RejectedAttempts(s, id)
  {
    forall q | q in FailuresOf(s, id) ensures Behind(s, q, id) in RejectedAttempts(s, id) {
      assert Backed(s, q, id, M.Rejected);
    }
  }

  /** Recorded attempts never exceed the publishes of that event that really were rejected; rollbacks may forget some. */
  lemma AttemptsAreReal(s: State, id: Id)
    requires Reachable(s) && id in s.rows
    ensures s.rows[id].attempts <= |RejectedAttempts(s, id)|
  {
    ReachableInv(s);
    assert RowOk(s, id) && HistoryOk(s, id);
    FailuresWitnessed(s, id);
    EvidenceCounts(s, id, FailuresOf(s, id));
    EvidenceIsRejected(s, id);
    Sets.SubsetCounts(Evidence(s, id, FailuresOf(s, id)), RejectedAttempts(s, id));
  }

  // ----- batches -----

  /** Batches held by different transactions share no event. */
  lemma BatchesAreDisjoint(s: State, q: nat, r: nat)
    requires Reachable(s) && q in s.polls && r in s.polls && q != r && Alive(s.polls[q]) && Alive(s.polls[r])
    ensures forall id :: id in s.polls[q].batch ==> id !in s.polls[r].batch
  {
    ReachableInv(s);
    assert PollsApart(s.polls[q], s.polls[r]);
  }

  /** The ignored null result of an update never occurs: in its transaction's view the event being handled is pending. */
  lemma MarksNeverMiss(s: State, q: nat, at: Time, error: string, nextRetryAt: Time)
    requires Reachable(s) && q in s.polls && Alive(s.polls[q]) && s.polls[q].done < |s.polls[q].batch|
    ensures var view, id := s.rows + s.polls[q].writes, s.polls[q].batch[s.polls[q].done];
            && MarkPublished(view, id, at).1.Some?
            && MarkPublishFailed(view, id, error, s.config.maxAttempts, nextRetryAt).1.Some?
  {
    ReachableInv(s);
    assert PollOk(s, q);
    NotYetUsed(s, q);
  }

  function AnswersOf(poll: Poll): seq<Answer>
    requires forall i :: 0 <= i < |poll.batch| ==> poll.batch[i] in poll.answers
  {
    seq(|poll.batch|, i requires 0 <= i < |poll.batch| => poll.answers[poll.batch[i]])
  }

  /** Every event of the batch is answered, and its buffered row is the answer's. */
  ghost predicate Answered(s: State, poll: Poll) {
    && (forall i :: 0 <= i < |poll.batch| ==>
          && poll.batch[i] in s.rows && poll.batch[i] in poll.answers && poll.batch[i] in poll.writes
          && Undisturbed(poll.answers[poll.batch[i]])
          && poll.writes[poll.batch[i]] == AfterAnswer(s.rows[poll.batch[i]], poll.answers[poll.batch[i]], s.config))
    && (forall id :: id in poll.writes ==> id in poll.batch && id in s.rows)
  }

  lemma CommittingPoll(s: State, q: nat)
    requires q in s.polls && s.polls[q].txn == Committing && PollShape(s, q) && PollHolds(s, q)
    ensures Answered(s, s.polls[q])
  {
    assert forall id :: id in s.polls[q].writes ==> WriteOk(s, q, id);
  }

  lemma AnsweredIsResult(s: State, poll: Poll)
    requires Answered(s, poll)
    requires forall i, j :: 0 <= i < j < |poll.batch| ==> poll.batch[i] != poll.batch[j]
    ensures s.rows + poll.writes == PollResult(s.rows, poll.batch, AnswersOf(poll), s.config)
  {
    PointwiseIsResult(s.rows, poll.batch, AnswersOf(poll), s.config, s.rows + poll.writes);
  }

  /** A commit applies the outcome function pointwise to the batch and leaves every other row alone. */
  lemma CommitIsPointwise(s: State, q: nat)
    requires Reachable(s) && Enabled(s, DbCommit(q))
    ensures Answered(s, s.polls[q])
    ensures DoDbCommit(s, q).rows == PollResult(s.rows, s.polls[q].batch, AnswersOf(s.polls[q]), s.config)
  {
    ReachableInv(s);
    assert PollOk(s, q);
    CommittingPoll(s, q);
    AnsweredIsResult(s, s.polls[q]);
  }

  lemma AnswersLowerRemaining(s: State, poll: Poll)
    requires Answered(s, poll) && RowsOk(s)
    requires forall i :: 0 <= i < |poll.batch| ==> s.rows[poll.batch[i]].status == Pending
    ensures var rows' := s.rows + poll.writes;
      && rows'.Keys == s.rows.Keys
      && forall id :: id in s.rows ==>
           Remaining(rows'[id], s.config.maxAttempts) + (if id in Members(poll.batch) then 1 else 0)
             <= Remaining(s.rows[id], s.config.maxAttempts)
  {
    forall id | id in s.rows
      ensures Remaining((s.rows + poll.writes)[id], s.config.maxAttempts) + (if id in Members(poll.batch) then 1 else 0)
           <= Remaining(s.rows[id], s.config.maxAttempts)
    {
      assert RowOk(s, id);
      if id in poll.batch { AnsweredRow(s.rows[id], poll.answers[id], s.config); }
    }
  }

  lemma MeasureFalls(rows: Rows, rows': Rows, batch: seq<Id>, maxAttempts: nat)
    requires rows'.Keys == rows.Keys && forall i :: 0 <= i < |batch| ==> batch[i] in rows
    requires forall i, j :: 0 <= i < j < |batch| ==> batch[i] != batch[j]
    requires forall id :: id in rows ==>
      Remaining(rows'[id], maxAttempts) + (if id in Members(batch) then 1 else 0) <= Remaining(rows[id], maxAttempts)
    ensures Sum(rows', rows'.Keys, maxAttempts) + |batch| <= Sum(rows, rows.Keys, maxAttempts)
  {
    MembersCount(batch);
    SumDrops(rows, rows', rows.Keys, Members(batch), maxAttempts);
    assert rows.Keys * Members(batch) == Members(batch);
  }

  lemma AnsweredLowersMeasure(s: State, poll: Poll)
    requires Answered(s, poll) && RowsOk(s)
    requires forall i :: 0 <= i < |poll.batch| ==> s.rows[poll.batch[i]].status == Pending
    requires forall i, j :: 0 <= i < j < |poll.batch| ==> poll.batch[i] != poll.batch[j]
    ensures var rows' := s.rows + poll.writes;
      && rows'.Keys == s.rows.Keys
      && Sum(rows', rows'.Keys, s.config.maxAttempts) + |poll.batch| <= Sum(s.rows, s.rows.Keys, s.config.maxAttempts)
  {
    AnswersLowerRemaining(s, poll);
    MeasureFalls(s.rows, s.rows + poll.writes, poll.batch, s.config.maxAttempts);
  }

  /** Whoever commits, the attempts left over all events drop by at least the length of the committed batch. */
  lemma CommitLowersMeasure(s: State, q: nat)
    requires Reachable(s) && Enabled(s, DbCommit(q))
    ensures var rows' := DoDbCommit(s, q).rows;
      && rows'.Keys == s.rows.Keys
      && Sum(rows', rows'.Keys, s.config.maxAttempts) + |s.polls[q].batch| <= Sum(s.rows, s.rows.Keys, s.config.maxAttempts)
  {
    ReachableInv(s);
    assert PollOk(s, q);
    CommittingPoll(s, q);
    AnsweredLowersMeasure(s, s.polls[q]);
  }

  /** An aborted poll leaves no trace in the table's history. */
  lemma AbortedLeavesNoTrace(s: State, q: nat, id: Id)
    requires Reachable(s) && q in s.polls && s.polls[q].txn == Aborted
    ensures q !in FailuresOf(s, id) && (id in s.publishedBy ==> s.publishedBy[id] != q)
  {
    ReachableInv(s);
    assert HistoryOk(s, id);
  }

  /** Only a commit or an insert changes the table. */
  lemma OnlyCommitsChangeRows(s: State, s': State, step: Step)
    requires Enabled(s, step) && s' == Apply(s, step) && s'.rows != s.rows
    ensures step.DbCommit? || (step.Insert? && step.event.id !in s.rows && s'.rows == s.rows[step.event.id := step.event])
  {
  }

  /** A commit writes pending rows only. */
  lemma WritesArePending(s: State, q: nat, id: Id)
    requires q in s.polls && s.polls[q].txn == Committing && PollHolds(s, q)
    ensures id in s.polls[q].writes ==> id in s.rows && s.rows[id].status == Pending
  {
    assert id in s.polls[q].writes ==> WriteOk(s, q, id);
  }

  /** A terminal row never changes again. */
  lemma TerminalStep(s: State, step: Step, id: Id)
    requires Inv(s) && Enabled(s, step) && id in s.rows && s.rows[id].status != Pending
    ensures id in Apply(s, step).rows && Apply(s, step).rows[id] == s.rows[id]
  {
    if step.DbCommit? {
      assert PollOk(s, step.q);
      WritesArePending(s, step.q, id);
    } else if Apply(s, step).rows != s.rows {
      OnlyCommitsChangeRows(s, Apply(s, step), step);
    }
  }

  lemma {:induction false} TerminalForever(run: seq<State>, i: nat, j: nat, id: Id)
    requires IsRun(run) && i <= j < |run| && id in run[i].rows && run[i].rows[id].status != Pending
    ensures id in run[j].rows && run[j].rows[id] == run[i].rows[id]
    decreases j - i
  {
    if i < j {
      TerminalForever(run, i, j - 1, id);
      RunInv(run, j - 1);
      assert Linked(run, j - 1);
      var step :| Enabled(run[j - 1], step) && run[j] == Apply(run[j - 1], step);
      TerminalStep(run[j - 1], step, id);
    }
  }
}
