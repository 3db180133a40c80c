/**
 How much delivering there can be, over every run of any number of workers, with inserts at any moment: the commits
 of polls, weighed by the events they handled, and the attempts still left share one budget.
 */
module DeliveryProgress {
  import opened Payments
  import opened Outbox
  import opened OutboxProgress
  import opened Delivery
  import opened DeliveryRuns
  import opened DeliveryTheorems

  function CommittedPolls(s: State): set<nat> {
    set q | q in s.polls && s.polls[q].txn == Committed
  }

  /** The events of `ids` in the batches of the polls `qs`, a batch at a time. */
  ghost function Handled(polls: map<nat, Poll>, qs: set<nat>, ids: set<Id>): nat
    requires qs <= polls.Keys
  {
    if qs == {} then 0
    else
      var q :| q in qs;
      |Members(polls[q].batch) * ids| + Handled(polls, qs - {q}, ids)
  }

  lemma {:induction false} HandledWithout(polls: map<nat, Poll>, qs: set<nat>, ids: set<Id>, r: nat)
    requires qs <= polls.Keys && r in qs
    ensures Handled(polls, qs, ids) == |Members(polls[r].batch) * ids| + Handled(polls, qs - {r}, ids)
    decreases |qs|
  {
    var q :| q in qs && Handled(polls, qs, ids) == |Members(polls[q].batch) * ids| + Handled(polls, qs - {q}, ids);
    if q != r {
      HandledWithout(polls, qs - {q}, ids, r);
      HandledWithout(polls, qs - {r}, ids, q);
      assert qs - {q} - {r} == qs - {r} - {q};
    }
  }

  /** What is handled depends only on which events of `ids` the batches hold. */
  lemma {:induction false} HandledSame(a: map<nat, Poll>, b: map<nat, Poll>, qs: set<nat>, ids: set<Id>, jds: set<Id>)
    requires qs <= a.Keys && qs <= b.Keys
    requires forall q :: q in qs ==> Members(a[q].batch) * ids == Members(b[q].batch) * jds
    ensures Handled(a, qs, ids) == Handled(b, qs, jds)
    decreases |qs|
  {
    if qs != {} {
      var q :| q in qs;
      HandledWithout(a, qs, ids, q);
      HandledWithout(b, qs, jds, q);
      HandledSame(a, b, qs - {q}, ids, jds);
    }
  }

  /** The budget: every event brings `maxAttempts` with it. */
  ghost predicate WithinBudget(s: State, ids: set<Id>)
    requires ids <= s.rows.Keys
  {
    Handled(s.polls, CommittedPolls(s), ids) + Sum(s.rows, ids, s.config.maxAttempts) <= |ids| * s.config.maxAttempts
  }

  // ----- the three kinds of step -----

  ghost predicate SameCommits(s: State, s': State) {
    && s'.config == s.config && CommittedPolls(s') == CommittedPolls(s)
    && forall q :: q in CommittedPolls(s) ==> s'.polls[q].batch == s.polls[q].batch
  }

  lemma QuietBudget(s: State, s': State, ids: set<Id>)
    requires ids <= s.rows.Keys && SameCommits(s, s') && s'.rows == s.rows && WithinBudget(s, ids)
    ensures WithinBudget(s', ids)
  {
    HandledSame(s.polls, s'.polls, CommittedPolls(s), ids, ids);
  }

  /** An event without a row is in no batch yet. */
  lemma NewIsUnhandled(s: State, ids: set<Id>, id: Id)
    requires PollsOk(s) && id !in s.rows
    ensures Handled(s.polls, CommittedPolls(s), ids) == Handled(s.polls, CommittedPolls(s), ids - {id})
  {
    forall q | q in CommittedPolls(s) ensures Members(s.polls[q].batch) * ids == Members(s.polls[q].batch) * (ids - {id}) {
      assert PollOk(s, q);
    }
    HandledSame(s.polls, s.polls, CommittedPolls(s), ids, ids - {id});
  }

  /** It brings at most `maxAttempts`. */
  lemma NewSum(rows: Rows, event: OutboxEvent, ids: set<Id>, maxAttempts: nat)
    requires event.id !in rows && ids <= rows.Keys + {event.id}
    ensures Sum(rows[event.id := event], ids, maxAttempts)
         <= Sum(rows, ids - {event.id}, maxAttempts) + (if event.id in ids then maxAttempts else 0)
  {
    var rows' := rows[event.id := event];
    SumSame(rows, rows', ids - {event.id}, maxAttempts);
    if event.id in ids { SumWithout(rows', ids, maxAttempts, event.id); } else { assert ids - {event.id} == ids; }
  }

  lemma SizeWithout(ids: set<Id>, id: Id)
    ensures |ids| == |ids - {id}| + (if id in ids then 1 else 0)
  {
    if id in ids { assert ids == (ids - {id}) + {id}; } else { assert ids - {id} == ids; }
  }

  /** An event more, with `m` attempts at most, and `m` more to spend. */
  lemma RoomForOneMore(handled: nat, sum: nat, sum': nat, n: nat, n': nat, more: bool, m: nat)
    requires handled + sum <= n * m && sum' <= sum + (if more then m else 0) && n' == n + (if more then 1 else 0)
    ensures handled + sum' <= n' * m
  {
    PassingCosts(n, more, m);
  }

  lemma InsertBudget(s: State, s': State, event: OutboxEvent, ids: set<Id>)
    requires event.id !in s.rows && s' == s.(rows := s.rows[event.id := event])
    requires ids <= s'.rows.Keys && WithinBudget(s, ids - {event.id})
    requires Handled(s.polls, CommittedPolls(s), ids) == Handled(s.polls, CommittedPolls(s), ids - {event.id})
    ensures WithinBudget(s', ids)
  {
    NewSum(s.rows, event, ids, s.config.maxAttempts);
    SizeWithout(ids, event.id);
    assert CommittedPolls(s') == CommittedPolls(s);
    RoomForOneMore(Handled(s.polls, CommittedPolls(s), ids), Sum(s.rows, ids - {event.id}, s.config.maxAttempts),
                   Sum(s'.rows, ids, s.config.maxAttempts), |ids - {event.id}|, |ids|, event.id in ids,
                   s.config.maxAttempts);
  }

  lemma CommitBudget(s: State, s': State, q: nat, ids: set<Id>)
    requires q in s.polls && s.polls[q].txn == Committing && s' == DoDbCommit(s, q)
    requires s'.rows.Keys == s.rows.Keys && ids <= s.rows.Keys && WithinBudget(s, ids)
    requires forall id :: id in s.rows ==>
      Remaining(s'.rows[id], s.config.maxAttempts) + (if id in Members(s.polls[q].batch) then 1 else 0)
        <= Remaining(s.rows[id], s.config.maxAttempts)
    ensures WithinBudget(s', ids)
  {
    var qs := CommittedPolls(s);
    assert CommittedPolls(s') == qs + {q} && qs + {q} - {q} == qs;
    HandledWithout(s'.polls, qs + {q}, ids, q);
    HandledSame(s.polls, s'.polls, qs, ids, ids);
    SumDrops(s.rows, s'.rows, ids, Members(s.polls[q].batch), s.config.maxAttempts);
    assert ids * Members(s.polls[q].batch) == Members(s.polls[q].batch) * ids;
  }

  lemma WritesLowerEach(s: State, q: nat)
    requires q in s.polls && s.polls[q].txn == Committing && RowsOk(s) && PollShape(s, q) && PollHolds(s, q)
    ensures var rows' := s.rows + s.polls[q].writes;
      && rows'.Keys == s.rows.Keys
      && forall id :: id in s.rows ==>
           Remaining(rows'[id], s.config.maxAttempts) + (if id in Members(s.polls[q].batch) then 1 else 0)
             <= Remaining(s.rows[id], s.config.maxAttempts)
  {
    CommittingPoll(s, q);
    AnswersLowerRemaining(s, s.polls[q]);
  }

  /** Only the database's commit makes a poll committed. */
  lemma OutsideCommitsStay(s: State, s': State, step: Step)
    requires Enabled(s, step) && s' == Apply(s, step) && !OfPoll(step) && !step.DbCommit?
    ensures SameCommits(s, s')
  {
  }

  lemma OnePollMoves(s: State, s': State, q: nat)
    requires q in s'.polls && s'.config == s.config && s'.polls == s.polls[q := s'.polls[q]]
    requires q in s.polls ==> s'.polls[q].batch == s.polls[q].batch
    requires s'.polls[q].txn == Committed <==> q in s.polls && s.polls[q].txn == Committed
    ensures SameCommits(s, s')
  {
  }

  lemma LeavingCommitsStay(s: State, s': State, step: Step)
    requires Enabled(s, step) && s' == Apply(s, step)
    requires step.PollThrows? || step.RecordFails? || step.SendCommit?
    ensures SameCommits(s, s')
  {
    OnePollMoves(s, s', step.q);
  }

  lemma WorkingCommitsStay(s: State, s': State, step: Step)
    requires Enabled(s, step) && s' == Apply(s, step) && (step.Fetch? || step.Publish? || step.Record?)
    ensures SameCommits(s, s')
  {
    OnePollMoves(s, s', step.q);
  }

  lemma PollCommitsStay(s: State, s': State, step: Step)
    requires Enabled(s, step) && s' == Apply(s, step) && OfPoll(step)
    ensures SameCommits(s, s')
  {
    if step.Fetch? || step.Publish? || step.Record? {
      WorkingCommitsStay(s, s', step);
    } else {
      LeavingCommitsStay(s, s', step);
    }
  }

  lemma QuietStepBudget(s: State, s': State, step: Step, ids: set<Id>)
    requires Enabled(s, step) && s' == Apply(s, step) && !step.Insert? && !step.DbCommit?
    requires ids <= s.rows.Keys && WithinBudget(s, ids)
    ensures ids <= s'.rows.Keys && WithinBudget(s', ids)
  {
    if OfPoll(step) { PollCommitsStay(s, s', step); } else { OutsideCommitsStay(s, s', step); }
    if s'.rows != s.rows { OnlyCommitsChangeRows(s, s', step); }
    QuietBudget(s, s', ids);
  }

  lemma StepBudget(s: State, s': State, step: Step, ids: set<Id>)
    requires Inv(s) && Enabled(s, step) && s' == Apply(s, step) && ids <= s'.rows.Keys
    requires !step.Insert? ==> ids <= s.rows.Keys && WithinBudget(s, ids)
    requires step.Insert? ==> ids - {step.event.id} <= s.rows.Keys && WithinBudget(s, ids - {step.event.id})
    ensures WithinBudget(s', ids)
  {
    if step.Insert? {
      NewIsUnhandled(s, ids, step.event.id);
      InsertBudget(s, s', step.event, ids);
    } else if step.DbCommit? {
      assert PollOk(s, step.q);
      WritesLowerEach(s, step.q);
      CommitBudget(s, s', step.q, ids);
    } else {
      QuietStepBudget(s, s', step, ids);
    }
  }

  /** The budget holds for any set of events, in every state of every run. */
  lemma {:induction false} RunBudget(run: seq<State>, i: nat, ids: set<Id>)
    requires IsRun(run) && i < |run| && ids <= run[i].rows.Keys
    ensures WithinBudget(run[i], ids)
    decreases i
  {
    if i > 0 {
      var s, s' := run[i - 1], run[i];
      RunInv(run, i - 1);
      assert Linked(run, i - 1);
      var step :| Enabled(s, step) && s' == Apply(s, step);
      KeysBefore(s, s', step, ids);
      RunBudget(run, i - 1, if step.Insert? then ids - {step.event.id} else ids);
      StepBudget(s, s', step, ids);
    }
  }

  lemma KeysBefore(s: State, s': State, step: Step, ids: set<Id>)
    requires Inv(s) && Enabled(s, step) && s' == Apply(s, step) && ids <= s'.rows.Keys
    ensures (if step.Insert? then ids - {step.event.id} else ids) <= s.rows.Keys
  {
    if step.DbCommit? {
      assert PollOk(s, step.q);
      WritesLowerEach(s, step.q);
    } else if s'.rows != s.rows {
      OnlyCommitsChangeRows(s, s', step);
    }
  }

  lemma ReachableBudget(s: State, ids: set<Id>)
    requires Reachable(s) && ids <= s.rows.Keys
    ensures WithinBudget(s, ids)
  {
    var run :| IsRun(run) && run[|run| - 1] == s;
    RunBudget(run, |run| - 1, ids);
  }

  // ----- how many polls can commit -----

  function WorkingPolls(s: State): set<nat> {
    set q | q in CommittedPolls(s) && s.polls[q].batch != []
  }

  /** Polls that handle at least `n` of the events each. */
  lemma {:induction false} HandledAtLeast(polls: map<nat, Poll>, qs: set<nat>, some: set<nat>, ids: set<Id>, n: nat)
    requires some <= qs <= polls.Keys
    requires forall q :: q in some ==> |Members(polls[q].batch) * ids| >= n
    ensures |some| * n <= Handled(polls, qs, ids)
    decreases |qs|
  {
    if qs == {} {
      assert some == {};
    } else {
      var q :| q in qs;
      HandledWithout(polls, qs, ids, q);
      HandledAtLeast(polls, qs - {q}, some - {q}, ids, n);
      SizeWithout(some, q);
      PassingCosts(|some - {q}|, q in some, n);
    }
  }

  lemma WorkingHandles(s: State, q: nat)
    requires PollsOk(s) && q in WorkingPolls(s)
    ensures |Members(s.polls[q].batch) * s.rows.Keys| >= 1
  {
    assert PollOk(s, q);
    assert s.polls[q].batch[0] in Members(s.polls[q].batch) * s.rows.Keys;
  }

  lemma CommitsFit(s: State)
    requires PollsOk(s) && RowsOk(s) && WithinBudget(s, s.rows.Keys)
    ensures |WorkingPolls(s)| <= |s.rows.Keys| * s.config.maxAttempts
    ensures |WorkingPolls(s)| == |s.rows.Keys| * s.config.maxAttempts ==>
      forall id :: id in s.rows ==> s.rows[id].status != Pending
  {
    forall q | q in WorkingPolls(s) ensures |Members(s.polls[q].batch) * s.rows.Keys| >= 1 { WorkingHandles(s, q); }
    HandledAtLeast(s.polls, CommittedPolls(s), WorkingPolls(s), s.rows.Keys, 1);
    RowsBounded(s);
    SpentIffTerminal(s.rows, s.config.maxAttempts);
  }

  /**
   At most (number of events) * maxAttempts non-empty polls ever commit, over all workers, whenever the events were
   inserted; and once that many have, every event is terminal.
   */
  lemma BoundedlyManyCommits(s: State)
    requires Reachable(s)
    ensures |WorkingPolls(s)| <= |s.rows.Keys| * s.config.maxAttempts
    ensures |WorkingPolls(s)| == |s.rows.Keys| * s.config.maxAttempts ==>
      forall id :: id in s.rows ==> s.rows[id].status != Pending
  {
    ReachableInv(s);
    ReachableBudget(s, s.rows.Keys);
    CommitsFit(s);
  }

  lemma RowsBounded(s: State)
    requires RowsOk(s)
    ensures Bounded(s.rows, s.config.maxAttempts)
  {
    forall id | id in s.rows ensures s.rows[id].id == id && WithinAttempts(s.rows[id], s.config.maxAttempts) {
      assert RowOk(s, id);
    }
  }

  // ----- how often an event is passed over -----

  /** The polls whose whole, full batch came before `e`. */
  function FilledAhead(s: State, e: Id): set<nat>
    requires e in s.rows
  {
    set q | q in CommittedPolls(s) && |s.polls[q].batch| == s.config.batchSize
            && Members(s.polls[q].batch) <= Ahead(s.rows, e)
  }

  /** A fetch that passes over an event which is eligible and not locked takes a full batch from ahead of it. */
  lemma PassingFetch(s: State, s': State, q: nat, p: nat, at: Time, e: Id)
    requires Enabled(s, Fetch(q, p, at)) && s' == DoFetch(s, q, p, at)
    requires e in s.rows && e !in Locked(s) && Eligible(s.rows[e], at) && e !in s'.polls[q].batch
    ensures |s'.polls[q].batch| == s'.config.batchSize && Members(s'.polls[q].batch) <= Ahead(s'.rows, e)
  {
    var ids := Candidates(s.rows, Locked(s), at);
    var batch := s'.polls[q].batch;
    BatchIsBatch(s.rows, ids, s.config.batchSize);
    assert LeftOut(s.rows, s.config.batchSize, batch, e);
    assert forall i :: 0 <= i < |batch| ==> batch[i] in ids;
  }

  /** Batches and the order of events are for ever. */
  lemma {:induction false} FilledStaysAhead(run: seq<State>, i: nat, j: nat, q: nat, e: Id)
    requires IsRun(run) && i <= j < |run| && e in run[i].rows && q in run[i].polls
    requires |run[i].polls[q].batch| == run[i].config.batchSize && Members(run[i].polls[q].batch) <= Ahead(run[i].rows, e)
    ensures e in run[j].rows && q in run[j].polls
    ensures |run[j].polls[q].batch| == run[j].config.batchSize && Members(run[j].polls[q].batch) <= Ahead(run[j].rows, e)
    decreases j - i
  {
    if i < j {
      FilledStaysAhead(run, i, j - 1, q, e);
      RunInv(run, j - 1);
      assert Linked(run, j - 1);
      var step :| Enabled(run[j - 1], step) && run[j] == Apply(run[j - 1], step);
      OrderStays(run[j - 1], run[j], step, e);
      BatchStays(run[j - 1], run[j], step, q);
    }
  }

  lemma AheadStays(rows: Rows, rows': Rows, e: Id)
    requires e in rows && forall id :: id in rows ==> id in rows' && rows'[id].createdAt == rows[id].createdAt
    ensures Ahead(rows, e) <= Ahead(rows', e)
  {
  }

  lemma CommitKeepsOrder(s: State, q: nat)
    requires q in s.polls && s.polls[q].txn == Committing && PollShape(s, q) && PollHolds(s, q)
    ensures forall id :: id in s.rows ==>
      id in s.rows + s.polls[q].writes && (s.rows + s.polls[q].writes)[id].createdAt == s.rows[id].createdAt
  {
    forall id | id in s.rows && id in s.polls[q].writes ensures s.polls[q].writes[id].createdAt == s.rows[id].createdAt {
      assert WriteOk(s, q, id);
    }
  }

  lemma OrderStays(s: State, s': State, step: Step, e: Id)
    requires Inv(s) && Enabled(s, step) && s' == Apply(s, step) && e in s.rows
    ensures e in s'.rows && Ahead(s.rows, e) <= Ahead(s'.rows, e)
  {
    if step.DbCommit? {
      assert PollOk(s, step.q);
      CommitKeepsOrder(s, step.q);
    } else if s'.rows != s.rows {
      OnlyCommitsChangeRows(s, s', step);
    }
    AheadStays(s.rows, s'.rows, e);
  }

  lemma BatchStays(s: State, s': State, step: Step, q: nat)
    requires Enabled(s, step) && s' == Apply(s, step) && q in s.polls
    ensures s'.config == s.config && q in s'.polls && s'.polls[q].batch == s.polls[q].batch
  {
  }

  /** So a committed poll that passed `e` over at its fetch is one of those polls. */
  lemma PassedOverIsFilledAhead(run: seq<State>, i: nat, j: nat, q: nat, p: nat, at: Time, e: Id)
    requires IsRun(run) && i < j < |run|
    requires Enabled(run[i], Fetch(q, p, at)) && run[i + 1] == DoFetch(run[i], q, p, at)
    requires e in run[i].rows && e !in Locked(run[i]) && Eligible(run[i].rows[e], at) && e !in run[i + 1].polls[q].batch
    requires q in run[j].polls && run[j].polls[q].txn == Committed
    ensures e in run[j].rows && q in FilledAhead(run[j], e)
  {
    PassingFetch(run[i], run[i + 1], q, p, at, e);
    FilledStaysAhead(run, i + 1, j, q, e);
  }

  lemma FilledHandles(s: State, q: nat, e: Id)
    requires PollsOk(s) && e in s.rows && q in FilledAhead(s, e)
    ensures |Members(s.polls[q].batch) * Ahead(s.rows, e)| >= s.config.batchSize
  {
    assert PollOk(s, q);
    MembersCount(s.polls[q].batch);
    assert Members(s.polls[q].batch) * Ahead(s.rows, e) == Members(s.polls[q].batch);
  }

  lemma OvertakingFits(s: State, e: Id)
    requires PollsOk(s) && e in s.rows && WithinBudget(s, Ahead(s.rows, e))
    ensures |FilledAhead(s, e)| * s.config.batchSize <= |Ahead(s.rows, e)| * s.config.maxAttempts
  {
    forall q | q in FilledAhead(s, e)
      ensures |Members(s.polls[q].batch) * Ahead(s.rows, e)| >= s.config.batchSize
    {
      FilledHandles(s, q, e);
    }
    HandledAtLeast(s.polls, CommittedPolls(s), FilledAhead(s, e), Ahead(s.rows, e), s.config.batchSize);
  }

  /**
   Bounded overtaking, for any number of workers: at most k * maxAttempts / batchSize committed polls pass an event
   over, k counting the events ahead of it.
   */
  lemma BoundedOvertakingByWorkers(s: State, e: Id)
    requires Reachable(s) && e in s.rows
    ensures |FilledAhead(s, e)| * s.config.batchSize <= |Ahead(s.rows, e)| * s.config.maxAttempts
  {
    ReachableInv(s);
    ReachableBudget(s, Ahead(s.rows, e));
    OvertakingFits(s, e);
  }
}
