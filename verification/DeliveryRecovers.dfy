/**
 Delivery is never lost for good: from every reachable state, whatever workers have crashed or hang, some continuation
 publishes every event that is still PENDING, and none publishes one that is FAILED.
 */
module DeliveryRecovers {
  import opened Options
  import opened Payments
  import opened Outbox
  import opened OutboxProgress
  import opened Delivery
  import opened DeliveryTheorems
  import M = Messaging
  import Sets

  ghost predicate Continues(s: State, tail: seq<State>) {
    |tail| > 0 && tail[0] == s && forall i :: 0 <= i < |tail| - 1 ==> Linked(tail, i)
  }

  /** `s` may follow `o`. */
  ghost predicate Follows(o: State, s: State) {
    exists tail :: Continues(o, tail) && tail[|tail| - 1] == s
  }

  lemma Stays(o: State)
    ensures Follows(o, o)
  {
    assert Continues(o, [o]);
  }

  lemma Goes(o: State, s: State, step: Step) returns (s': State)
    requires Follows(o, s) && Enabled(s, step)
    ensures s' == Apply(s, step) && Follows(o, s')
  {
    s' := Apply(s, step);
    var tail :| Continues(o, tail) && tail[|tail| - 1] == s;
    var longer := tail + [s'];
    forall i | 0 <= i < |longer| - 1 ensures Linked(longer, i) {
      if i < |tail| - 1 {
        assert Linked(tail, i);
      } else {
        assert Next(s, s');
      }
    }
    assert Continues(o, longer) && longer[|longer| - 1] == s';
  }

  // ----- a new worker -----

  function AlivePolls(s: State): set<nat> {
    set q | q in s.polls && Alive(s.polls[q])
  }

  /** The database gives up every open transaction. */
  lemma {:induction false} Unlocks(o: State, s: State) returns (s': State)
    requires Follows(o, s)
    ensures Follows(o, s') && s' == s.(polls := s'.polls) && AlivePolls(s') == {}
    decreases |AlivePolls(s)|
  {
    s' := s;
    if AlivePolls(s) != {} {
      var q :| q in AlivePolls(s);
      var t := Goes(o, s, DbAbort(q));
      assert AlivePolls(t) == AlivePolls(s) - {q};
      s' := Unlocks(o, t);
    }
  }

  const CONNECTED := M.Link(M.Manager(Some(0), Some(0), false, false, {0}), 1, [], map[])

  /** A new worker process connects to the broker. */
  lemma Starts(o: State, s: State) returns (s': State, p: nat)
    requires Follows(o, s)
    ensures Follows(o, s') && p !in s'.busy && p !in s'.dead && s' == s.(links := s.links[p := CONNECTED])
  {
    p := Sets.Fresh(s.links.Keys + s.busy.Keys + s.dead);
    s' := Goes(o, s, StartProcess(p));
    s' := Goes(o, s', LinkSignal(p, M.ConnectBegins));
    s' := Goes(o, s', LinkSignal(p, M.ConnectionOpens(0)));
    s' := Goes(o, s', LinkSignal(p, M.ChannelOpens));
    assert s'.links[p].manager.listening == {0};
    assert s'.links == s.links[p := CONNECTED];
  }

  // ----- its poll -----

  /** The worker's poll has confirmed its first `n` events, and its link is ready for the next. */
  ghost predicate Working(s: State, p: nat, q: nat, n: nat) {
    && InPoll(s, q) && s.polls[q].process == p && s.polls[q].txn == Open && s.polls[q].current.None?
    && s.polls[q].done == n <= |s.polls[q].batch|
    && s.links[p].manager.channel == Some(0) && 0 in s.links[p].manager.listening && s.links[p].pending == map[]
    && (forall i :: 0 <= i < |s.polls[q].batch| ==> s.polls[q].batch[i] in s.rows)
    && s.polls[q].writes == map id | id in Members(s.polls[q].batch[..n]) && id in s.rows :: PublishedRow(s.rows[id], 0)
  }

  /** The poll of an idle worker once nothing is locked. */
  lemma Fetches(o: State, s: State, p: nat, at: Time) returns (s': State, q: nat)
    requires Follows(o, s) && AlivePolls(s) == {} && at <= s.now
    requires p in s.links && s.links[p] == CONNECTED && p !in s.busy && p !in s.dead
    ensures Follows(o, s') && s'.rows == s.rows && s'.config == s.config && Working(s', p, q, 0)
    ensures s'.polls[q].batch == Batch(s.rows, Candidates(s.rows, {}, at), s.config.batchSize)
  {
    q := Sets.Fresh(s.polls.Keys);
    LockedByNone(s);
    BatchIsBatch(s.rows, Candidates(s.rows, {}, at), s.config.batchSize);
    s' := Goes(o, s, Fetch(q, p, at));
  }

  lemma LockedByNone(s: State)
    requires AlivePolls(s) == {}
    ensures Locked(s) == {}
  {
    forall q | q in s.polls ensures !Alive(s.polls[q]) { assert q !in AlivePolls(s); }
  }

  lemma Sends(o: State, s: State, p: nat, q: nat, n: nat) returns (s': State)
    requires Follows(o, s) && Working(s, p, q, n) && n < |s.polls[q].batch|
    ensures Follows(o, s')
    ensures s' == s.(links := s.links[p := M.Send(s.links[p], MessageOf(s.rows[s.polls[q].batch[n]]), 0)],
                     polls := s.polls[q := s.polls[q].(current := Some(|s.links[p].attempts|))])
  {
    s' := Goes(o, s, Publish(q, true));
  }

  /** The broker routes and confirms the attempt in flight. */
  lemma IsConfirmed(o: State, s: State, p: nat, a: nat) returns (s': State)
    requires Follows(o, s) && p in s.links && a < |s.links[p].attempts|
    requires s.links[p].attempts[a] == M.Attempt(s.links[p].attempts[a].message, 0, false, false, false, None)
    requires 0 in s.links[p].manager.listening && s.links[p].pending == map[s.links[p].attempts[a].message.id := a]
    ensures Follows(o, s') && p in s'.links && s' == s.(links := s.links[p := s'.links[p]])
    ensures s'.links[p].manager == s.links[p].manager && s'.links[p].pending == map[]
    ensures |s'.links[p].attempts| == |s.links[p].attempts| && s'.links[p].attempts[a].result == Some(M.Confirmed)
  {
    s' := Goes(o, s, LinkSignal(p, M.BrokerAcks(a, true)));
  }

  lemma Records(o: State, s: State, q: nat) returns (s': State)
    requires Follows(o, s) && Awaiting(s, q) && ResultOf(s, q) == Some(M.Confirmed) && s.polls[q].txn == Open
    requires s.polls[q].batch[s.polls[q].done] in s.rows
    ensures Follows(o, s')
    ensures var poll := s.polls[q];
            var id := poll.batch[poll.done];
            && q in s'.polls && s' == s.(polls := s.polls[q := s'.polls[q]])
            && s'.polls[q] == poll.(done := poll.done + 1, current := None, used := s'.polls[q].used,
                                    answers := s'.polls[q].answers,
                                    writes := poll.writes[id := PublishedRow(s.rows[id], 0)])
  {
    s' := Goes(o, s, Record(q, 0, 0, ""));
  }

  lemma Publishes(o: State, s: State, p: nat, q: nat, n: nat) returns (s': State)
    requires Follows(o, s) && Working(s, p, q, n) && n < |s.polls[q].batch|
    ensures Follows(o, s') && s'.rows == s.rows && s'.config == s.config && Working(s', p, q, n + 1)
    ensures s'.polls[q].batch == s.polls[q].batch
  {
    var t := Sends(o, s, p, q, n);
    t := IsConfirmed(o, t, p, |s.links[p].attempts|);
    s' := Records(o, t, q);
    var batch := s.polls[q].batch;
    assert Members(batch[..n + 1]) == Members(batch[..n]) + {batch[n]};
  }

  lemma {:induction false} PublishesAll(o: State, s: State, p: nat, q: nat, n: nat) returns (s': State)
    requires Follows(o, s) && Working(s, p, q, n)
    ensures Follows(o, s') && s'.rows == s.rows && s'.config == s.config
    ensures Working(s', p, q, |s.polls[q].batch|) && s'.polls[q].batch == s.polls[q].batch
    decreases |s.polls[q].batch| - n
  {
    s' := s;
    if n < |s.polls[q].batch| {
      var t := Publishes(o, s, p, q, n);
      s' := PublishesAll(o, t, p, q, n + 1);
    }
  }

  lemma Commits(o: State, s: State, p: nat, q: nat) returns (s': State)
    requires Follows(o, s) && q in s.polls && Working(s, p, q, |s.polls[q].batch|)
    ensures Follows(o, s') && s'.config == s.config && s'.rows == s.rows + s.polls[q].writes
  {
    s' := Goes(o, s, SendCommit(q));
    s' := Goes(o, s', DbCommit(q));
  }

  // ----- round by round -----

  function PendingOf(rows: Rows): set<Id> {
    set id | id in rows && rows[id].status == Pending
  }

  /** Every row is as it was, or was PENDING and has been published. */
  ghost predicate Advances(rows: Rows, rows': Rows) {
    && rows'.Keys == rows.Keys
    && forall id :: id in rows ==>
         rows'[id] == rows[id] || (rows[id].status == Pending && rows'[id] == PublishedRow(rows[id], 0))
  }

  /** The rows once a batch has been published. */
  function AllPublished(rows: Rows, batch: seq<Id>): Rows {
    rows + map id | id in Members(batch) && id in rows :: PublishedRow(rows[id], 0)
  }

  lemma BatchAdvances(rows: Rows, at: Time, limit: nat, e: Id)
    requires limit > 0 && e in Candidates(rows, {}, at)
    ensures var rows' := AllPublished(rows, Batch(rows, Candidates(rows, {}, at), limit));
            Advances(rows, rows') && PendingOf(rows') < PendingOf(rows)
  {
    var ids := Candidates(rows, {}, at);
    var batch := Batch(rows, ids, limit);
    var rows' := AllPublished(rows, batch);
    BatchIsBatch(rows, ids, limit);
    if batch == [] { EmptyBatch(rows, ids, limit); }
    assert forall id :: id in Members(batch) ==> id in ids;
    assert batch[0] in Members(batch);
    assert batch[0] in PendingOf(rows) && batch[0] !in PendingOf(rows');
  }

  lemma Polls(o: State, s: State, p: nat, at: Time) returns (s': State)
    requires Follows(o, s) && AlivePolls(s) == {} && at <= s.now
    requires p in s.links && s.links[p] == CONNECTED && p !in s.busy && p !in s.dead
    ensures Follows(o, s') && s'.config == s.config
    ensures s'.rows == AllPublished(s.rows, Batch(s.rows, Candidates(s.rows, {}, at), s.config.batchSize))
  {
    var t, q := Fetches(o, s, p, at);
    var batch := t.polls[q].batch;
    t := PublishesAll(o, t, p, q, 0);
    s' := Commits(o, t, p, q);
    assert batch[..|batch|] == batch;
  }

  lemma Prepares(o: State, s: State, at: Time) returns (s': State, p: nat)
    requires Follows(o, s) && s.now <= at
    ensures Follows(o, s') && s'.rows == s.rows && s'.config == s.config && s'.now == at && AlivePolls(s') == {}
    ensures p in s'.links && s'.links[p] == CONNECTED && p !in s'.busy && p !in s'.dead
  {
    s' := Goes(o, s, Tick(at));
    s' := Unlocks(o, s');
    s', p := Starts(o, s');
  }

  /** One poll, begun when `e` has become eligible. */
  lemma Round(o: State, s: State, e: Id) returns (s': State)
    requires Follows(o, s) && s.config.batchSize > 0 && e in PendingOf(s.rows)
    ensures Follows(o, s') && s'.config == s.config
    ensures Advances(s.rows, s'.rows) && PendingOf(s'.rows) < PendingOf(s.rows)
  {
    var retry := s.rows[e].nextRetryAt;
    var at := if retry.Some? && retry.value > s.now then retry.value else s.now;
    var t, p := Prepares(o, s, at);
    s' := Polls(o, t, p, at);
    BatchAdvances(s.rows, at, s.config.batchSize, e);
  }

  lemma {:induction false} Rounds(o: State, s: State) returns (s': State)
    requires Follows(o, s) && s.config.batchSize > 0
    ensures Follows(o, s') && Advances(s.rows, s'.rows) && PendingOf(s'.rows) == {}
    decreases |PendingOf(s.rows)|
  {
    s' := s;
    if PendingOf(s.rows) != {} {
      var e :| e in PendingOf(s.rows);
      var t := Round(o, s, e);
      Sets.ProperSubsetCounts(PendingOf(t.rows), PendingOf(s.rows));
      s' := Rounds(o, t);
      AdvancesTransitive(s.rows, t.rows, s'.rows);
    }
  }

  lemma AdvancesTransitive(a: Rows, b: Rows, c: Rows)
    requires Advances(a, b) && Advances(b, c)
    ensures Advances(a, c)
  {
    forall id | id in a
      ensures c[id] == a[id] || (a[id].status == Pending && c[id] == PublishedRow(a[id], 0))
    {
      assert id in b;
    }
  }

  /** From every reachable state, some continuation publishes every PENDING event and leaves the other rows alone. */
  lemma EverythingCanBePublished(s: State) returns (t: State)
    requires Reachable(s)
    ensures Follows(s, t) && t.rows.Keys == s.rows.Keys
    ensures forall id :: id in s.rows ==>
      if s.rows[id].status == Pending then t.rows[id] == PublishedRow(s.rows[id], 0) else t.rows[id] == s.rows[id]
  {
    ReachableInv(s);
    Stays(s);
    t := Rounds(s, s);
    forall id | id in s.rows
      ensures if s.rows[id].status == Pending then t.rows[id] == PublishedRow(s.rows[id], 0) else t.rows[id] == s.rows[id]
    {
      assert id !in PendingOf(t.rows);
    }
  }

  lemma {:induction false} TailKeepsTerminal(s: State, tail: seq<State>, i: nat, id: Id)
    requires Reachable(s) && Continues(s, tail) && i < |tail| && id in s.rows && s.rows[id].status != Pending
    ensures Reachable(tail[i]) && id in tail[i].rows && tail[i].rows[id] == s.rows[id]
  {
    if i > 0 {
      TailKeepsTerminal(s, tail, i - 1, id);
      assert Linked(tail, i - 1);
      var step :| Enabled(tail[i - 1], step) && tail[i] == Apply(tail[i - 1], step);
      ReachesNext(tail[i - 1], step);
      ReachableInv(tail[i - 1]);
      TerminalStep(tail[i - 1], step, id);
    }
  }

  ghost predicate PublishedIn(s: State, t: State, id: Id) {
    Follows(s, t) && id in t.rows && t.rows[id].status == Published
  }

  /** An event can be PUBLISHED, now or later, exactly when it is not FAILED. */
  lemma CanBePublishedIff(s: State, id: Id)
    requires Reachable(s) && id in s.rows
    ensures (exists t :: PublishedIn(s, t, id)) <==> s.rows[id].status != Exhausted
  {
    if s.rows[id].status == Exhausted {
      forall tail | Continues(s, tail) ensures !PublishedIn(s, tail[|tail| - 1], id) {
        TailKeepsTerminal(s, tail, |tail| - 1, id);
      }
    } else {
      var t := EverythingCanBePublished(s);
      assert PublishedIn(s, t, id);
    }
  }
}
