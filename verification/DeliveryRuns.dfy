/** Fetching, publishing and committing keep the delivery invariant; so does every run. */
module DeliveryRuns {
  import opened Options
  import opened Payments
  import opened Outbox
  import opened OutboxProgress
  import opened Delivery
  import opened DeliverySteps
  import M = Messaging

  // ----- fetching -----

  /** A locked batch: distinct pending rows nobody else holds. */
  lemma FetchedBatch(s: State, at: Time) returns (batch: seq<Id>)
    ensures batch == Batch(s.rows, Candidates(s.rows, Locked(s), at), s.config.batchSize)
    ensures forall i :: 0 <= i < |batch| ==> batch[i] in s.rows && s.rows[batch[i]].status == Pending
    ensures forall id :: id in batch ==> id !in Locked(s)
    ensures forall i, j :: 0 <= i < j < |batch| ==> batch[i] != batch[j]
  {
    var ids := Candidates(s.rows, Locked(s), at);
    batch := Batch(s.rows, ids, s.config.batchSize);
    BatchIsBatch(s.rows, ids, s.config.batchSize);
    BatchDistinct(s.rows, ids, s.config.batchSize, batch);
    assert forall i :: 0 <= i < |batch| ==> batch[i] in ids;
  }

  /** Poll `q` of process `p` begins with `batch`. */
  ghost predicate Begins(s: State, s': State, q: nat, p: nat, batch: seq<Id>) {
    && q !in s.polls && p in s.links && p !in s.dead && p !in s.busy
    && s' == s.(polls := s.polls[q := Poll.Poll(p, Open, batch, 0, None, map[], map[], map[])], busy := s.busy[p := q])
  }

  lemma BeginsExtends(s: State, s': State, q: nat, p: nat, batch: seq<Id>)
    requires Begins(s, s', q, p, batch)
    ensures Extends(s, s')
  {
  }

  lemma BeginsPair(s: State, batch: seq<Id>, p: nat, r: nat)
    requires r in s.polls && forall id :: id in batch ==> id !in Locked(s)
    ensures PollsApart(s.polls[r], Poll.Poll(p, Open, batch, 0, None, map[], map[], map[]))
    ensures PollsApart(Poll.Poll(p, Open, batch, 0, None, map[], map[], map[]), s.polls[r])
  {
    assert Alive(s.polls[r]) ==> forall id :: id in s.polls[r].batch ==> id in Locked(s);
  }

  lemma BeginsTables(s: State, s': State, q: nat, p: nat, batch: seq<Id>)
    requires RowsOk(s) && HistoriesOk(s) && PollsOk(s) && PairsOk(s) && Begins(s, s', q, p, batch)
    requires forall i :: 0 <= i < |batch| ==> batch[i] in s.rows && s.rows[batch[i]].status == Pending
    requires forall id :: id in batch ==> id !in Locked(s)
    requires forall i, j :: 0 <= i < j < |batch| ==> batch[i] != batch[j]
    ensures RowsOk(s') && HistoriesOk(s') && PollsOk(s') && PairsOk(s')
  {
    BeginsExtends(s, s', q, p, batch);
    forall id | id in s'.rows ensures RowOk(s', id) { assert RowOk(s, id); }
    forall id ensures HistoryOk(s', id) {
      assert HistoryOk(s, id);
      HistoryKept(s, s', id);
    }
    forall r | r in s'.polls ensures PollOk(s', r) {
      if r != q { OtherPollKept(s, s', r); }
    }
    forall i, j | i in s'.polls && j in s'.polls && i != j ensures PollsApart(s'.polls[i], s'.polls[j]) {
      if i != q && j != q {
        assert PollsApart(s.polls[i], s.polls[j]);
      } else {
        BeginsPair(s, batch, p, if i == q then j else i);
      }
    }
  }

  lemma BeginsLinks(s: State, s': State, q: nat, p: nat, batch: seq<Id>)
    requires LinksOk(s) && Begins(s, s', q, p, batch)
    ensures LinksOk(s')
  {
    BeginsExtends(s, s', q, p, batch);
    forall r | r in s'.links ensures LinkQuiet(s', r) && LinkFaithful(s', r) {
      assert LinkQuiet(s, r) && LinkFaithful(s, r);
      FaithfulKept(s, s', r);
    }
  }

  lemma FetchKeepsInv(s: State, s': State, q: nat, p: nat, at: Time)
    requires Inv(s) && Enabled(s, Fetch(q, p, at)) && s' == DoFetch(s, q, p, at)
    ensures Inv(s')
  {
    var batch := FetchedBatch(s, at);
    BeginsTables(s, s', q, p, batch);
    BeginsLinks(s, s', q, p, batch);
  }

  // ----- publishing -----

  /** Poll `q` publishes `message` over its link, which becomes `link`. */
  ghost predicate Sends(s: State, s': State, q: nat, message: M.Message, link: M.Link) {
    && InPoll(s, q) && s.polls[q].current.None? && s.polls[q].done < |s.polls[q].batch|
    && s.polls[q].batch[s.polls[q].done] in s.rows && message == MessageOf(s.rows[s.polls[q].batch[s.polls[q].done]])
    && var poll := s.polls[q];
       var n := |s.links[poll.process].attempts|;
       && M.LinkOk(link) && M.AttemptsGrow(s.links[poll.process], link)
       && |link.attempts| == n + 1 && link.attempts[n].message == message
       && s' == s.(links := s.links[poll.process := link], polls := s.polls[q := poll.(current := Some(n))])
  }

  lemma SendsExtends(s: State, s': State, q: nat, message: M.Message, link: M.Link)
    requires Sends(s, s', q, message, link)
    ensures Extends(s, s')
  {
  }

  lemma SendsPoll(s: State, s': State, q: nat, message: M.Message, link: M.Link)
    requires Sends(s, s', q, message, link) && PollOk(s, q)
    ensures PollOk(s', q)
  {
    SendsExtends(s, s', q, message, link);
    if Alive(s.polls[q]) {
      forall id | id in s'.polls[q].writes ensures WriteOk(s', q, id) { WriteKept(s, s', q, id); }
    }
  }

  lemma SendsPair(s: State, s': State, q: nat, message: M.Message, link: M.Link, r: nat)
    requires Sends(s, s', q, message, link) && r in s.polls && r != q && PollShape(s, r)
    requires PollsApart(s.polls[q], s.polls[r]) && PollsApart(s.polls[r], s.polls[q])
    ensures PollsApart(s'.polls[q], s'.polls[r]) && PollsApart(s'.polls[r], s'.polls[q])
  {
    var n := |s.links[s.polls[q].process].attempts|;
    assert Touched(s'.polls[q]) == Touched(s.polls[q]) + {n};
  }

  lemma SendsTables(s: State, s': State, q: nat, message: M.Message, link: M.Link)
    requires RowsOk(s) && HistoriesOk(s) && PollsOk(s) && PairsOk(s) && Sends(s, s', q, message, link)
    ensures RowsOk(s') && HistoriesOk(s') && PollsOk(s') && PairsOk(s')
  {
    SendsExtends(s, s', q, message, link);
    forall id | id in s'.rows ensures RowOk(s', id) { assert RowOk(s, id); }
    forall id ensures HistoryOk(s', id) {
      assert HistoryOk(s, id);
      HistoryKept(s, s', id);
    }
    forall r | r in s'.polls ensures PollOk(s', r) {
      assert PollOk(s, r);
      if r == q { SendsPoll(s, s', q, message, link); } else { OtherPollKept(s, s', r); }
    }
    SendsPairs(s, s', q, message, link);
  }

  lemma SendsPairs(s: State, s': State, q: nat, message: M.Message, link: M.Link)
    requires PollsOk(s) && PairsOk(s) && Sends(s, s', q, message, link)
    ensures PairsOk(s')
  {
    forall i, j | i in s'.polls && j in s'.polls && i != j ensures PollsApart(s'.polls[i], s'.polls[j]) {
      assert PollOk(s, i) && PollOk(s, j);
      assert PollsApart(s.polls[i], s.polls[j]) && PollsApart(s.polls[j], s.polls[i]);
      if i == q { SendsPair(s, s', q, message, link, j); }
      if j == q { SendsPair(s, s', q, message, link, i); }
    }
  }

  lemma SendsFaithful(s: State, s': State, q: nat, message: M.Message, link: M.Link)
    requires Sends(s, s', q, message, link) && LinkFaithful(s, s.polls[q].process)
    requires RowOk(s, s.polls[q].batch[s.polls[q].done])
    ensures LinkFaithful(s', s.polls[q].process)
  {
    var p := s.polls[q].process;
    forall a | 0 <= a < |link.attempts| ensures Faithful(s', link.attempts[a].message) {
      if a < |s.links[p].attempts| {
        assert M.AttemptGrows(s.links[p].attempts[a], link.attempts[a]);
        assert Faithful(s, s.links[p].attempts[a].message);
      }
    }
  }

  lemma SendsQuiet(s: State, s': State, q: nat, message: M.Message, link: M.Link)
    requires Sends(s, s', q, message, link) && LinkQuiet(s, s.polls[q].process)
    ensures LinkQuiet(s', s.polls[q].process)
  {
    var p := s.polls[q].process;
    forall a | 0 <= a < |s.links[p].attempts| ensures link.attempts[a].result.Some? {
      assert M.AttemptGrows(s.links[p].attempts[a], link.attempts[a]);
    }
  }

  lemma SendsLinks(s: State, s': State, q: nat, message: M.Message, link: M.Link)
    requires RowsOk(s) && LinksOk(s) && Sends(s, s', q, message, link)
    ensures LinksOk(s')
  {
    SendsExtends(s, s', q, message, link);
    forall r | r in s'.links ensures LinkQuiet(s', r) && LinkFaithful(s', r) {
      assert LinkQuiet(s, r) && LinkFaithful(s, r);
      if r == s.polls[q].process {
        SendsQuiet(s, s', q, message, link);
        SendsFaithful(s, s', q, message, link);
      } else {
        FaithfulKept(s, s', r);
      }
    }
  }

  lemma PublishSends(s: State, s': State, q: nat, accepted: bool) returns (message: M.Message, link: M.Link)
    requires Enabled(s, Publish(q, accepted)) && s' == DoPublish(s, q, accepted)
    requires LinkQuiet(s, s.polls[q].process)
    ensures Sends(s, s', q, message, link)
  {
    var before := s.links[s.polls[q].process];
    message := MessageOf(s.rows[s.polls[q].batch[s.polls[q].done]]);
    link := s'.links[s.polls[q].process];
    M.SendKeeps(before, message);
    M.SendThrowsKeeps(before, message);
  }

  lemma PublishKeepsInv(s: State, s': State, q: nat, accepted: bool)
    requires Inv(s) && Enabled(s, Publish(q, accepted)) && s' == DoPublish(s, q, accepted)
    ensures Inv(s')
  {
    assert LinkQuiet(s, s.polls[q].process);
    var message, link := PublishSends(s, s', q, accepted);
    SendsTables(s, s', q, message, link);
    SendsLinks(s, s', q, message, link);
  }

  // ----- committing -----

  ghost predicate Commits(s: State, s': State, q: nat) {
    q in s.polls && s.polls[q].txn == Committing && s' == DoDbCommit(s, q)
  }

  lemma CommitRowContent(s: State, s': State, q: nat, id: Id)
    requires Commits(s, s', q) && id in s.rows && s.rows[id].id == id
    requires id in s.polls[q].writes ==> WriteOk(s, q, id)
    ensures id in s'.rows && MessageOf(s'.rows[id]) == MessageOf(s.rows[id])
  {
  }

  lemma CommitExtends(s: State, s': State, q: nat)
    requires Commits(s, s', q) && PollOk(s, q) && RowsOk(s)
    ensures Extends(s, s')
  {
    forall id | id in s.rows ensures id in s'.rows && MessageOf(s'.rows[id]) == MessageOf(s.rows[id]) {
      assert RowOk(s, id) && (id in s.polls[q].writes ==> WriteOk(s, q, id));
      CommitRowContent(s, s', q, id);
    }
  }

  lemma CommitFailures(s: State, s': State, q: nat, id: Id)
    requires Commits(s, s', q)
    ensures FailuresOf(s', id) ==
      if id in s.polls[q].writes && s.polls[q].writes[id].status != Published then FailuresOf(s, id) + {q}
      else FailuresOf(s, id)
  {
  }

  lemma CommitWrittenRow(s: State, s': State, q: nat, id: Id)
    requires Commits(s, s', q) && id in s.polls[q].writes && WriteOk(s, q, id) && HistoryOk(s, id) && RowOk(s, id)
    ensures RowOk(s', id)
  {
    AnsweredRow(s.rows[id], s.polls[q].answers[id], s.config);
    CommitFailures(s, s', q, id);
    assert q !in FailuresOf(s, id);
  }

  lemma CommitRow(s: State, s': State, q: nat, id: Id)
    requires Commits(s, s', q) && PollOk(s, q) && id in s'.rows && HistoryOk(s, id)
    requires id in s.rows ==> RowOk(s, id)
    ensures RowOk(s', id)
  {
    CommitFailures(s, s', q, id);
    if id in s.polls[q].writes {
      assert WriteOk(s, q, id);
      CommitWrittenRow(s, s', q, id);
    }
  }

  /** The commit's own entry in the history of an event it wrote. */
  lemma CommitEntry(s: State, s': State, q: nat, id: Id)
    requires Commits(s, s', q) && Extends(s, s') && id in s.polls[q].writes && WriteOk(s, q, id)
    ensures Backed(s', q, id, ResultBehind(s.polls[q].answers[id]))
    ensures if s.polls[q].writes[id].status == Published
      then ResultBehind(s.polls[q].answers[id]) == M.Confirmed && id in s'.publishedBy && s'.publishedBy[id] == q
      else ResultBehind(s.polls[q].answers[id]) == M.Rejected
  {
    BackedKept(s, s', q, id, ResultBehind(s.polls[q].answers[id]));
  }

  lemma CommitPublished(s: State, s': State, q: nat, id: Id)
    requires Commits(s, s', q) && Extends(s, s') && HistoryOk(s, id) && id in s'.publishedBy
    requires id in s.polls[q].writes ==> WriteOk(s, q, id)
    ensures Backed(s', s'.publishedBy[id], id, M.Confirmed) && s'.polls[s'.publishedBy[id]].txn == Committed
  {
    if id in s.polls[q].writes && s.polls[q].writes[id].status == Published {
      CommitEntry(s, s', q, id);
    } else {
      BackedKept(s, s', s.publishedBy[id], id, M.Confirmed);
    }
  }

  lemma CommitHistory(s: State, s': State, q: nat, id: Id)
    requires Commits(s, s', q) && Extends(s, s') && HistoryOk(s, id)
    requires id in s.polls[q].writes ==> WriteOk(s, q, id)
    ensures HistoryOk(s', id)
  {
    if id in s'.publishedBy { CommitPublished(s, s', q, id); }
    CommitFailures(s, s', q, id);
    forall r | r in FailuresOf(s', id) ensures Backed(s', r, id, M.Rejected) && s'.polls[r].txn == Committed {
      if r in FailuresOf(s, id) {
        BackedKept(s, s', r, id, M.Rejected);
      } else {
        CommitEntry(s, s', q, id);
      }
    }
  }

  lemma CommitLeavesOthers(s: State, s': State, q: nat, r: nat)
    requires Commits(s, s', q) && PollOk(s, q) && Extends(s, s') && r in s.polls && r != q && PollOk(s, r)
    requires PollsApart(s.polls[q], s.polls[r])
    ensures PollOk(s', r)
  {
    ShapeKept(s, s', r);
    assert Alive(s.polls[r]) ==> forall id :: id in s.polls[r].batch ==> id !in s.polls[q].writes;
    HoldsKept(s, s', r);
  }

  lemma CommitLeavesItself(s: State, s': State, q: nat)
    requires Commits(s, s', q) && Extends(s, s') && PollShape(s, q) && UsedApart(s.polls[q])
    ensures PollOk(s', q)
  {
    ShapeKept(s, s', q);
  }

  lemma CommitPolls(s: State, s': State, q: nat)
    requires Commits(s, s', q) && PollOk(s, q) && Extends(s, s') && PollsOk(s) && PairsOk(s)
    ensures PollsOk(s')
  {
    forall r | r in s'.polls ensures PollOk(s', r) {
      if r == q {
        CommitLeavesItself(s, s', q);
      } else {
        assert PollOk(s, r) && PollsApart(s.polls[q], s.polls[r]);
        CommitLeavesOthers(s, s', q, r);
      }
    }
  }

  lemma CommitPairs(s: State, s': State, q: nat)
    requires Commits(s, s', q) && PairsOk(s)
    ensures PairsOk(s')
  {
    forall i, j | i in s'.polls && j in s'.polls && i != j ensures PollsApart(s'.polls[i], s'.polls[j]) {
      assert PollsApart(s.polls[i], s.polls[j]);
    }
  }

  lemma CommitLinks(s: State, s': State, q: nat)
    requires Commits(s, s', q) && Extends(s, s') && LinksOk(s)
    ensures LinksOk(s')
  {
    forall p | p in s'.links ensures LinkQuiet(s', p) && LinkFaithful(s', p) {
      assert LinkQuiet(s, p) && LinkFaithful(s, p);
      FaithfulKept(s, s', p);
    }
  }

  lemma CommitRows(s: State, s': State, q: nat)
    requires Commits(s, s', q) && PollOk(s, q) && RowsOk(s) && HistoriesOk(s)
    ensures RowsOk(s')
  {
    forall id | id in s'.rows ensures RowOk(s', id) {
      assert HistoryOk(s, id) && (id in s.rows ==> RowOk(s, id));
      CommitRow(s, s', q, id);
    }
  }

  lemma CommitHistories(s: State, s': State, q: nat)
    requires Commits(s, s', q) && Extends(s, s') && PollHolds(s, q) && HistoriesOk(s)
    ensures HistoriesOk(s')
  {
    forall id ensures HistoryOk(s', id) {
      assert HistoryOk(s, id) && (id in s.polls[q].writes ==> WriteOk(s, q, id));
      CommitHistory(s, s', q, id);
    }
  }

  lemma DbCommitKeepsInv(s: State, s': State, q: nat)
    requires Inv(s) && Enabled(s, DbCommit(q)) && s' == DoDbCommit(s, q)
    ensures Inv(s')
  {
    assert PollOk(s, q);
    CommitExtends(s, s', q);
    CommitRows(s, s', q);
    CommitHistories(s, s', q);
    CommitPolls(s, s', q);
    CommitPairs(s, s', q);
    CommitLinks(s, s', q);
  }

  // ----- every run -----

  predicate OfPoll(step: Step) {
    step.Fetch? || step.Publish? || step.PollThrows? || step.Record? || step.RecordFails? || step.SendCommit?
  }

  lemma OutsideStepKeepsInv(s: State, step: Step)
    requires Inv(s) && Enabled(s, step) && !OfPoll(step)
    ensures Inv(Apply(s, step))
  {
    match step
    case Tick(now) => TickKeepsInv(s, now);
    case Insert(event) => InsertKeepsInv(s, event);
    case StartProcess(p) => StartProcessKeepsInv(s, p);
    case LinkSignal(p, signal) => LinkSignalKeepsInv(s, p, signal);
    case DbCommit(q) => DbCommitKeepsInv(s, Apply(s, step), q);
    case DbAbort(q) => DbAbortKeepsInv(s, q);
    case Crash(p) => CrashKeepsInv(s, p);
  }

  lemma PollStepKeepsInv(s: State, step: Step)
    requires Inv(s) && Enabled(s, step) && OfPoll(step)
    ensures Inv(Apply(s, step))
  {
    match step
    case Fetch(q, p, at) => FetchKeepsInv(s, Apply(s, step), q, p, at);
    case Publish(q, accepted) => PublishKeepsInv(s, Apply(s, step), q, accepted);
    case PollThrows(q) => EndPollKeepsInv(s, q, RolledBack(s.polls[q]));
    case Record(q, clock, databaseNow, error) =>
      if ResultOf(s, q) == Some(M.NotAttempted) {
        RethrowKeepsInv(s, Apply(s, step), q, clock, databaseNow, error);
      } else {
        RecordOutcomeKeepsInv(s, Apply(s, step), q, clock, databaseNow, error);
      }
    case RecordFails(q) => EndPollKeepsInv(s, q, RolledBack(s.polls[q]));
    case SendCommit(q) => EndPollKeepsInv(s, q, s.polls[q].(txn := Committing));
  }

  lemma StepKeepsInv(s: State, step: Step)
    requires Inv(s) && Enabled(s, step)
    ensures Inv(Apply(s, step))
  {
    if OfPoll(step) { PollStepKeepsInv(s, step); } else { OutsideStepKeepsInv(s, step); }
  }

  lemma {:induction false} RunInv(run: seq<State>, i: nat)
    requires IsRun(run) && i < |run|
    ensures Inv(run[i])
  {
    if i > 0 {
      RunInv(run, i - 1);
      assert Linked(run, i - 1);
      var step :| Enabled(run[i - 1], step) && run[i] == Apply(run[i - 1], step);
      StepKeepsInv(run[i - 1], step);
    }
  }
}
