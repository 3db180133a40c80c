/** Every step of the delivery system keeps its invariant. */
module DeliverySteps {
  import opened Options
  import opened Payments
  import opened Outbox
  import opened Delivery
  import M = Messaging

  // ----- what a step may do to the facts others rely on -----

  /** Rows keep their content, links keep their attempts, polls keep what they used. */
  ghost predicate Extends(s: State, s': State) {
    && s'.config == s.config
    && (forall id :: id in s.rows ==> id in s'.rows && MessageOf(s'.rows[id]) == MessageOf(s.rows[id]))
    && (forall p :: p in s.links ==> p in s'.links && M.AttemptsGrow(s.links[p], s'.links[p]))
    && (forall q :: q in s.polls ==> q in s'.polls && PollKeeps(s.polls[q], s'.polls[q]))
  }

  predicate PollKeeps(a: Poll, b: Poll) {
    && b.process == a.process && b.batch == a.batch
    && (forall id :: id in a.used ==> id in b.used && b.used[id] == a.used[id])
    && (a.txn == Committed ==> b.txn == Committed)
  }

  lemma BackedKept(s: State, s': State, q: nat, id: Id, result: M.Result)
    requires Extends(s, s') && Backed(s, q, id, result)
    ensures Backed(s', q, id, result)
  {
    var p := s.polls[q].process;
    var a := s.polls[q].used[id];
    assert M.AttemptGrows(s.links[p].attempts[a], s'.links[p].attempts[a]);
  }

  lemma HistoryKept(s: State, s': State, id: Id)
    requires Extends(s, s') && HistoryOk(s, id)
    requires s'.publishedBy == s.publishedBy && s'.failedBy == s.failedBy
    ensures HistoryOk(s', id)
  {
    if id in s.publishedBy { BackedKept(s, s', s.publishedBy[id], id, M.Confirmed); }
    forall q | q in FailuresOf(s', id) ensures Backed(s', q, id, M.Rejected) && s'.polls[q].txn == Committed {
      BackedKept(s, s', q, id, M.Rejected);
    }
  }

  lemma ShapeKept(s: State, s': State, q: nat)
    requires Extends(s, s') && q in s.polls && PollShape(s, q)
    requires s'.polls[q] == s.polls[q] || s'.polls[q] == s.polls[q].(txn := s'.polls[q].txn)
    ensures PollShape(s', q)
  {
    var poll := s.polls[q];
    if poll.current.Some? {
      assert M.AttemptGrows(s.links[poll.process].attempts[poll.current.value],
                            s'.links[poll.process].attempts[poll.current.value]);
    }
  }

  lemma WriteKept(s: State, s': State, q: nat, id: Id)
    requires Extends(s, s') && q in s.polls && id in s.polls[q].writes && WriteOk(s, q, id)
    requires id in s'.polls[q].writes && s'.polls[q].writes[id] == s.polls[q].writes[id]
    requires id in s'.polls[q].answers && s'.polls[q].answers[id] == s.polls[q].answers[id]
    requires s'.rows[id] == s.rows[id]
    ensures WriteOk(s', q, id)
  {
    BackedKept(s, s', q, id, ResultBehind(s.polls[q].answers[id]));
  }

  /** A poll keeps holding its batch while its rows are left alone. */
  lemma HoldsKept(s: State, s': State, q: nat)
    requires Extends(s, s') && q in s.polls && PollShape(s, q) && PollHolds(s, q)
    requires s'.polls[q] == s.polls[q] || s'.polls[q] == s.polls[q].(txn := Aborted)
    requires Alive(s'.polls[q]) ==> forall id :: id in s.polls[q].batch ==> s'.rows[id] == s.rows[id]
    ensures PollHolds(s', q)
  {
    if Alive(s'.polls[q]) {
      var poll := s.polls[q];
      forall id | id in poll.writes ensures WriteOk(s', q, id) { WriteKept(s, s', q, id); }
    }
  }

  // ----- the world outside polls -----

  /** A step that changes no poll and no bookkeeping, and no row that exists. */
  ghost predicate Outside(s: State, s': State) {
    && Extends(s, s')
    && s'.polls == s.polls && s'.publishedBy == s.publishedBy && s'.failedBy == s.failedBy
    && (forall id :: id in s.rows ==> s'.rows[id] == s.rows[id])
  }

  lemma OutsideKeepsPoll(s: State, s': State, q: nat)
    requires Outside(s, s') && q in s.polls && PollOk(s, q)
    ensures PollOk(s', q)
  {
    ShapeKept(s, s', q);
    HoldsKept(s, s', q);
  }

  lemma OutsideKeepsTables(s: State, s': State)
    requires RowsOk(s) && HistoriesOk(s) && PollsOk(s) && PairsOk(s) && Outside(s, s')
    requires forall id :: id in s'.rows && id !in s.rows ==> RowOk(s', id)
    ensures RowsOk(s') && HistoriesOk(s') && PollsOk(s') && PairsOk(s')
  {
    forall id | id in s'.rows ensures RowOk(s', id) {
      if id in s.rows { assert RowOk(s, id); }
    }
    forall id ensures HistoryOk(s', id) {
      assert HistoryOk(s, id);
      HistoryKept(s, s', id);
    }
    forall q | q in s'.polls ensures PollOk(s', q) {
      assert PollOk(s, q);
      OutsideKeepsPoll(s, s', q);
    }
  }

  lemma FaithfulKept(s: State, s': State, p: nat)
    requires Extends(s, s') && p in s.links && LinkFaithful(s, p) && s'.links[p] == s.links[p]
    ensures LinkFaithful(s', p)
  {
    forall a | 0 <= a < |s'.links[p].attempts| ensures Faithful(s', s'.links[p].attempts[a].message) {
      assert Faithful(s, s.links[p].attempts[a].message);
    }
  }

  /** Links stay sound when they and the polls they serve are left alone. */
  lemma LinksKept(s: State, s': State)
    requires LinksOk(s) && Extends(s, s') && s'.polls == s.polls && s'.busy == s.busy && s'.dead == s.dead
    requires forall p :: p in s.links ==> s'.links[p] == s.links[p]
    requires forall p :: p in s'.links && p !in s.links ==> s'.links[p] == M.FRESH
    ensures LinksOk(s')
  {
    forall p | p in s'.links ensures LinkQuiet(s', p) && LinkFaithful(s', p) {
      if p in s.links {
        assert LinkQuiet(s, p) && LinkFaithful(s, p);
        FaithfulKept(s, s', p);
      }
    }
  }

  lemma QuietWorldKeepsInv(s: State, s': State)
    requires Inv(s) && Outside(s, s') && s'.busy == s.busy && s'.dead == s.dead
    requires forall p :: p in s.links ==> s'.links[p] == s.links[p]
    requires forall p :: p in s'.links && p !in s.links ==> s'.links[p] == M.FRESH
    requires forall id :: id in s'.rows && id !in s.rows ==> RowOk(s', id)
    ensures Inv(s')
  {
    OutsideKeepsTables(s, s');
    LinksKept(s, s');
  }

  lemma TickKeepsInv(s: State, now: Time)
    requires Inv(s)
    ensures Inv(s.(now := now))
  {
    QuietWorldKeepsInv(s, s.(now := now));
  }

  lemma NewRowOk(s: State, event: OutboxEvent)
    requires ValidConfig(s.config) && HistoryOk(s, event.id) && Enabled(s, Step.Insert(event))
    ensures RowOk(s.(rows := s.rows[event.id := event]), event.id)
  {
    assert FailuresOf(s, event.id) == {};
  }

  lemma InsertKeepsInv(s: State, event: OutboxEvent)
    requires Inv(s) && Enabled(s, Step.Insert(event))
    ensures Inv(Apply(s, Step.Insert(event)))
  {
    assert HistoryOk(s, event.id);
    NewRowOk(s, event);
    QuietWorldKeepsInv(s, s.(rows := s.rows[event.id := event]));
  }

  lemma StartProcessKeepsInv(s: State, p: nat)
    requires Inv(s) && Enabled(s, StartProcess(p))
    ensures Inv(Apply(s, StartProcess(p)))
  {
    QuietWorldKeepsInv(s, s.(links := s.links[p := M.FRESH]));
  }

  /** A signal that publishes nothing adds no attempt. */
  lemma SignalAddsNothing(l: M.Link, signal: M.Signal)
    requires M.LinkOk(l) && M.Possible(l, signal) && !signal.Publishes? && !signal.PublishThrows?
    ensures |M.Handle(l, signal).attempts| == |l.attempts|
  {
  }

  lemma LinkGrowthOutside(s: State, s': State, p: nat, link: M.Link)
    requires p in s.links && s' == s.(links := s.links[p := link])
    requires M.AttemptsGrow(s.links[p], link)
    ensures Outside(s, s')
  {
  }

  lemma SignalledLink(s: State, s': State, p: nat)
    requires p in s.links && LinkQuiet(s, p) && LinkFaithful(s, p)
    requires p in s'.links && M.LinkOk(s'.links[p]) && M.AttemptsGrow(s.links[p], s'.links[p])
    requires |s'.links[p].attempts| == |s.links[p].attempts|
    requires s'.busy == s.busy && s'.polls == s.polls && s'.dead == s.dead && s'.rows == s.rows
    ensures LinkQuiet(s', p) && LinkFaithful(s', p)
  {
    forall a | 0 <= a < |s'.links[p].attempts|
      ensures Faithful(s', s'.links[p].attempts[a].message)
      ensures s.links[p].attempts[a].result.Some? ==> s'.links[p].attempts[a].result.Some?
    {
      assert M.AttemptGrows(s.links[p].attempts[a], s'.links[p].attempts[a]);
      assert Faithful(s, s.links[p].attempts[a].message);
    }
  }

  lemma SignalKeepsLinks(s: State, s': State, p: nat, link: M.Link)
    requires LinksOk(s) && p in s.links && s' == s.(links := s.links[p := link])
    requires M.LinkOk(link) && M.AttemptsGrow(s.links[p], link) && |link.attempts| == |s.links[p].attempts|
    requires Extends(s, s')
    ensures LinksOk(s')
  {
    forall r | r in s'.links ensures LinkQuiet(s', r) && LinkFaithful(s', r) {
      assert LinkQuiet(s, r) && LinkFaithful(s, r);
      if r == p {
        SignalledLink(s, s', p);
      } else {
        FaithfulKept(s, s', r);
      }
    }
  }

  lemma LinkSignalKeepsInv(s: State, p: nat, signal: M.Signal)
    requires Inv(s) && Enabled(s, LinkSignal(p, signal))
    ensures Inv(Apply(s, LinkSignal(p, signal)))
  {
    var link := M.Handle(s.links[p], signal);
    var s' := s.(links := s.links[p := link]);
    assert LinkQuiet(s, p);
    M.SignalKeeps(s.links[p], signal);
    M.SignalGrows(s.links[p], signal);
    SignalAddsNothing(s.links[p], signal);
    LinkGrowthOutside(s, s', p, link);
    OutsideKeepsTables(s, s');
    SignalKeepsLinks(s, s', p, link);
  }

  lemma CrashKeepsLink(s: State, s': State, p: nat, r: nat)
    requires s' == s.(dead := s.dead + {p}, busy := s.busy - {p}) && r in s.links && LinkQuiet(s, r)
    ensures LinkQuiet(s', r)
  {
  }

  lemma CrashKeepsLinks(s: State, s': State, p: nat)
    requires LinksOk(s) && Extends(s, s') && s' == s.(dead := s.dead + {p}, busy := s.busy - {p})
    ensures LinksOk(s')
  {
    forall r | r in s'.links ensures LinkQuiet(s', r) && LinkFaithful(s', r) {
      assert LinkQuiet(s, r) && LinkFaithful(s, r);
      CrashKeepsLink(s, s', p, r);
      FaithfulKept(s, s', r);
    }
  }

  lemma CrashIsOutside(s: State, s': State, p: nat)
    requires s' == s.(dead := s.dead + {p}, busy := s.busy - {p})
    ensures Outside(s, s')
  {
  }

  lemma CrashKeepsInv(s: State, p: nat)
    requires Inv(s) && Enabled(s, Crash(p))
    ensures Inv(s.(dead := s.dead + {p}, busy := s.busy - {p}))
  {
    var s' := s.(dead := s.dead + {p}, busy := s.busy - {p});
    CrashIsOutside(s, s', p);
    OutsideKeepsTables(s, s');
    CrashKeepsLinks(s, s', p);
  }

  // ----- steps of one poll that change no row -----

  /** Poll `q` moves; rows, links and bookkeeping stay. */
  ghost predicate PollMoves(s: State, s': State, q: nat) {
    && q in s.polls && q in s'.polls
    && s'.config == s.config && s'.rows == s.rows && s'.links == s.links && s'.dead == s.dead
    && s'.publishedBy == s.publishedBy && s'.failedBy == s.failedBy
    && s'.polls == s.polls[q := s'.polls[q]]
    && PollKeeps(s.polls[q], s'.polls[q])
    && (Alive(s'.polls[q]) ==> Alive(s.polls[q]))
    && Touched(s'.polls[q]) <= Touched(s.polls[q])
  }

  lemma PollMovesExtends(s: State, s': State, q: nat)
    requires PollMoves(s, s', q)
    ensures Extends(s, s')
  {
  }

  lemma PollMoveKeepsPairs(s: State, s': State, q: nat)
    requires PollMoves(s, s', q) && PairsOk(s)
    ensures PairsOk(s')
  {
    forall i, j | i in s'.polls && j in s'.polls && i != j ensures PollsApart(s'.polls[i], s'.polls[j]) {
      assert PollsApart(s.polls[i], s.polls[j]);
    }
  }

  lemma OtherPollKept(s: State, s': State, q: nat)
    requires Extends(s, s') && s'.rows == s.rows && q in s.polls && PollOk(s, q) && s'.polls[q] == s.polls[q]
    ensures PollOk(s', q)
  {
    ShapeKept(s, s', q);
    HoldsKept(s, s', q);
  }

  lemma PollMoveKeepsTables(s: State, s': State, q: nat)
    requires RowsOk(s) && HistoriesOk(s) && PollsOk(s) && PairsOk(s) && PollMoves(s, s', q)
    requires PollOk(s', q)
    ensures RowsOk(s') && HistoriesOk(s') && PollsOk(s') && PairsOk(s')
  {
    PollMovesExtends(s, s', q);
    forall id | id in s'.rows ensures RowOk(s', id) { assert RowOk(s, id); }
    forall id ensures HistoryOk(s', id) {
      assert HistoryOk(s, id);
      HistoryKept(s, s', id);
    }
    forall r | r in s'.polls ensures PollOk(s', r) {
      if r != q { OtherPollKept(s, s', r); }
    }
    PollMoveKeepsPairs(s, s', q);
  }

  /** The process of a moving poll: still in it with the same attempt awaited, or with a quiet link. */
  lemma LinksFollowPoll(s: State, s': State, q: nat)
    requires PollMoves(s, s', q) && LinksOk(s) && s.polls[q].process in s.links
    requires s'.busy == s.busy || s'.busy == s.busy - {s.polls[q].process}
    requires (s'.busy == s.busy && s'.polls[q].current == s.polls[q].current) || M.Quiet(s.links[s.polls[q].process])
    ensures LinksOk(s')
  {
    PollMovesExtends(s, s', q);
    forall p | p in s'.links ensures LinkQuiet(s', p) && LinkFaithful(s', p) {
      assert LinkQuiet(s, p) && LinkFaithful(s, p);
      FaithfulKept(s, s', p);
    }
  }

  /** Once the awaited attempt has settled, the link is quiet. */
  lemma SettledIsQuiet(s: State, q: nat)
    requires InPoll(s, q) && LinkQuiet(s, s.polls[q].process)
    requires s.polls[q].current.Some? ==> Awaiting(s, q) && ResultOf(s, q).Some?
    ensures M.Quiet(s.links[s.polls[q].process])
  {
  }

  /** The poll as it leaves the process: rolled back, or with its commit sent. */
  predicate Left(poll: Poll, poll': Poll) {
    || poll' == RolledBack(poll)
    || (poll' == poll.(txn := Committing) && poll.current.None? && poll.done == |poll.batch| && poll.txn == Open)
  }

  lemma LeftPollOk(s: State, s': State, q: nat)
    requires PollMoves(s, s', q) && PollOk(s, q) && Left(s.polls[q], s'.polls[q])
    ensures PollOk(s', q)
  {
    PollMovesExtends(s, s', q);
    if Alive(s'.polls[q]) {
      forall id | id in s'.polls[q].writes ensures WriteOk(s', q, id) { WriteKept(s, s', q, id); }
    }
  }

  lemma LeavingMoves(s: State, q: nat, poll: Poll)
    requires q in s.polls && Left(s.polls[q], poll)
    ensures PollMoves(s, EndPoll(s, q, poll), q)
  {
  }

  /** Leaving a poll, committing or rolled back. */
  lemma EndPollKeepsInv(s: State, q: nat, poll: Poll)
    requires Inv(s) && InPoll(s, q) && Left(s.polls[q], poll)
    requires s.polls[q].current.Some? ==> Awaiting(s, q) && ResultOf(s, q).Some?
    ensures Inv(EndPoll(s, q, poll))
  {
    var s' := EndPoll(s, q, poll);
    assert PollOk(s, q) && LinkQuiet(s, s.polls[q].process);
    SettledIsQuiet(s, q);
    LeavingMoves(s, q, poll);
    LeftPollOk(s, s', q);
    PollMoveKeepsTables(s, s', q);
    LinksFollowPoll(s, s', q);
  }

  lemma AbortedMoves(s: State, s': State, q: nat)
    requires q in s.polls && Alive(s.polls[q]) && PollOk(s, q)
    requires s' == s.(polls := s.polls[q := s.polls[q].(txn := Aborted)])
    ensures PollMoves(s, s', q) && PollOk(s', q)
  {
    assert Touched(s'.polls[q]) == Touched(s.polls[q]);
    PollMovesExtends(s, s', q);
    ShapeKept(s, s', q);
  }

  lemma DbAbortKeepsInv(s: State, q: nat)
    requires Inv(s) && Enabled(s, DbAbort(q))
    ensures Inv(Apply(s, DbAbort(q)))
  {
    var s' := s.(polls := s.polls[q := s.polls[q].(txn := Aborted)]);
    assert PollOk(s, q);
    AbortedMoves(s, s', q);
    PollMoveKeepsTables(s, s', q);
    LinksFollowPoll(s, s', q);
  }

  // ----- recording one outcome -----

  /** The event being handled has not been recorded by this poll. */
  lemma NotYetUsed(s: State, q: nat)
    requires q in s.polls && PollShape(s, q) && s.polls[q].done < |s.polls[q].batch|
    ensures s.polls[q].batch[s.polls[q].done] !in s.polls[q].used
  {
  }

  /** The poll after recording `answer` for its current event. */
  ghost predicate Recorded(s: State, s': State, q: nat, answer: Answer) {
    && Awaiting(s, q) && s.polls[q].txn == Open && s.polls[q].batch[s.polls[q].done] in s.rows
    && ResultOf(s, q) == Some(ResultBehind(answer)) && Undisturbed(answer)
    && s' == s.(polls := s.polls[q := Noted(s, s.polls[q], answer)])
  }

  lemma RecordedMoves(s: State, s': State, q: nat, answer: Answer)
    requires Recorded(s, s', q, answer) && PollShape(s, q)
    ensures PollMoves(s, s', q)
  {
    NotYetUsed(s, q);
  }

  lemma RecordedShape(s: State, s': State, q: nat, answer: Answer)
    requires Recorded(s, s', q, answer) && PollShape(s, q)
    ensures PollShape(s', q) && UsedApart(s'.polls[q])
  {
    var poll := s.polls[q];
    var id := poll.batch[poll.done];
    assert poll.batch[..poll.done + 1] == poll.batch[..poll.done] + [id];
  }

  lemma RecordedWritesOk(s: State, s': State, q: nat, answer: Answer)
    requires Recorded(s, s', q, answer) && PollShape(s, q) && Extends(s, s')
    requires forall id :: id in s.polls[q].writes ==> WriteOk(s, q, id)
    requires WriteOk(s', q, s.polls[q].batch[s.polls[q].done])
    ensures forall i :: i in s'.polls[q].writes ==> WriteOk(s', q, i)
  {
    NotYetUsed(s, q);
    forall i | i in s'.polls[q].writes ensures WriteOk(s', q, i) {
      if i != s.polls[q].batch[s.polls[q].done] { WriteKept(s, s', q, i); }
    }
  }

  lemma RecordedHolds(s: State, s': State, q: nat, answer: Answer)
    requires Recorded(s, s', q, answer) && PollShape(s, q) && PollHolds(s, q)
    requires Extends(s, s')
    requires WriteOk(s', q, s.polls[q].batch[s.polls[q].done])
    ensures PollHolds(s', q)
  {
    RecordedWritesOk(s, s', q, answer);
  }

  lemma RecordedWrite(s: State, s': State, q: nat, answer: Answer)
    requires Recorded(s, s', q, answer) && PollShape(s, q)
    requires s.rows[s.polls[q].batch[s.polls[q].done]].status == Pending
    ensures WriteOk(s', q, s.polls[q].batch[s.polls[q].done])
  {
  }

  lemma HeardIsRecorded(s: State, s': State, q: nat, clock: Time, databaseNow: Time, error: string)
    returns (answer: Answer)
    requires Enabled(s, Record(q, clock, databaseNow, error)) && ResultOf(s, q) != Some(M.NotAttempted)
    requires s' == DoRecord(s, q, clock, databaseNow, error)
    ensures Recorded(s, s', q, answer)
  {
    answer := Heard(ResultOf(s, q).value, clock, databaseNow, error).value;
  }

  lemma RecordSuccessKeepsInv(s: State, s': State, q: nat, answer: Answer)
    requires Inv(s) && Recorded(s, s', q, answer) && ResultOf(s, q).Some?
    requires WriteOk(s', q, s.polls[q].batch[s.polls[q].done])
    ensures Inv(s')
  {
    assert PollOk(s, q) && LinkQuiet(s, s.polls[q].process);
    RecordedMoves(s, s', q, answer);
    PollMovesExtends(s, s', q);
    RecordedShape(s, s', q, answer);
    RecordedHolds(s, s', q, answer);
    SettledIsQuiet(s, q);
    PollMoveKeepsTables(s, s', q);
    LinksFollowPoll(s, s', q);
  }

  lemma RecordOutcomeKeepsInv(s: State, s': State, q: nat, clock: Time, databaseNow: Time, error: string)
    requires Inv(s) && Enabled(s, Record(q, clock, databaseNow, error)) && ResultOf(s, q) != Some(M.NotAttempted)
    requires s' == DoRecord(s, q, clock, databaseNow, error)
    ensures Inv(s')
  {
    var answer := HeardIsRecorded(s, s', q, clock, databaseNow, error);
    assert PollOk(s, q);
    RecordedWrite(s, s', q, answer);
    RecordSuccessKeepsInv(s, s', q, answer);
  }

  lemma RecordRethrows(s: State, s': State, q: nat, clock: Time, databaseNow: Time, error: string)
    requires Enabled(s, Record(q, clock, databaseNow, error)) && ResultOf(s, q) == Some(M.NotAttempted)
    requires s' == DoRecord(s, q, clock, databaseNow, error)
    ensures InPoll(s, q) && s' == EndPoll(s, q, RolledBack(s.polls[q]))
  {
  }

  lemma RethrowKeepsInv(s: State, s': State, q: nat, clock: Time, databaseNow: Time, error: string)
    requires Inv(s) && Enabled(s, Record(q, clock, databaseNow, error)) && ResultOf(s, q) == Some(M.NotAttempted)
    requires s' == DoRecord(s, q, clock, databaseNow, error)
    ensures Inv(s')
  {
    RecordRethrows(s, s', q, clock, databaseNow, error);
    EndPollKeepsInv(s, q, RolledBack(s.polls[q]));
  }
}
