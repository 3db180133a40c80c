/**
 Any number of worker processes deliver one outbox table: each polls in its own transaction, over its own link to
 the broker. Transactions may abort at any time, commit unheard, or be left behind by a crashed process; links do
 whatever module Messaging allows. What the table says about delivery is compared with what the broker saw.
 */
module Delivery {
  import opened Options
  import opened Payments
  import opened Outbox
  import opened OutboxProgress
  import M = Messaging

  datatype Transaction = Open | Committing | Committed | Aborted

  /** One execution of `pollOnce` from its fetch on. */
  datatype Poll = Poll(
    process: nat,
    txn: Transaction,
    batch: seq<Id>,
    done: nat,                // events of the batch already recorded
    current: Option<nat>,     // the attempt being awaited, for batch[done]
    used: map<Id, nat>,       // the attempt behind each recorded event
    answers: map<Id, Answer>, // and how that attempt ended
    writes: Rows)             // the buffered updates

  datatype State = State(
    config: Config,
    rows: Rows,
    now: Time,
    links: map<nat, M.Link>,
    dead: set<nat>,                 // crashed processes
    busy: map<nat, nat>,            // the poll each process is in
    polls: map<nat, Poll>,
    publishedBy: map<Id, nat>,      // bookkeeping: the poll whose commit published the event
    failedBy: map<Id, set<nat>>)    // bookkeeping: the polls whose commits recorded a failure of it

  function Initial(config: Config): State {
    State(config, map[], 0, map[], {}, map[], map[], map[], map[])
  }

  function MessageOf(row: OutboxEvent): M.Message {
    M.Message(row.id, row.routingKey, row.payload)
  }

  predicate Alive(poll: Poll) {
    poll.txn == Open || poll.txn == Committing
  }

  /** Rows a fetch skips. */
  ghost function Locked(s: State): set<Id> {
    set q, id | q in s.polls && Alive(s.polls[q]) && id in s.polls[q].batch :: id
  }

  datatype Step =
    | Tick(now: Time)
    | Insert(event: OutboxEvent)
    | StartProcess(p: nat)
    | LinkSignal(p: nat, signal: M.Signal)
    | Fetch(q: nat, p: nat, at: Time)
    | Publish(q: nat, accepted: bool)
    | PollThrows(q: nat)          // no channel for the next publish, or the commit is refused
    | Record(q: nat, clock: Time, databaseNow: Time, error: string)
    | RecordFails(q: nat)
    | SendCommit(q: nat)
    | DbCommit(q: nat)
    | DbAbort(q: nat)
    | Crash(p: nat)

  /** The process is inside poll `q`. */
  predicate InPoll(s: State, q: nat) {
    && q in s.polls && s.polls[q].process in s.busy && s.busy[s.polls[q].process] == q
    && s.polls[q].process in s.links
  }

  /** `getConfirmChannel` returns at once. */
  predicate HasChannel(link: M.Link) {
    link.manager.channel.Some? && !link.manager.closed
  }

  predicate Awaiting(s: State, q: nat) {
    && InPoll(s, q) && s.polls[q].current.Some?
    && s.polls[q].current.value < |s.links[s.polls[q].process].attempts|
    && s.polls[q].done < |s.polls[q].batch|
  }

  function ResultOf(s: State, q: nat): Option<M.Result>
    requires Awaiting(s, q)
  {
    s.links[s.polls[q].process].attempts[s.polls[q].current.value].result
  }

  ghost predicate Enabled(s: State, step: Step) {
    match step
    case Tick(now) => s.now <= now
    case Insert(event) =>
      event.id !in s.rows && event == NewEvent(event.id, event.routingKey, event.payload, event.createdAt)
    case StartProcess(p) => p !in s.links
    case LinkSignal(p, signal) =>
      && p in s.links && !signal.Publishes? && !signal.PublishThrows?
      && M.Possible(s.links[p], signal) && M.PendingInRange(s.links[p])
    case Fetch(q, p, at) => q !in s.polls && p in s.links && p !in s.dead && p !in s.busy && at <= s.now
    case Publish(q, _) =>
      && InPoll(s, q) && s.polls[q].current.None? && s.polls[q].done < |s.polls[q].batch|
      && s.polls[q].batch[s.polls[q].done] in s.rows
      && s.links[s.polls[q].process].manager.channel.Some?
    case PollThrows(q) =>
      && InPoll(s, q) && s.polls[q].current.None?
      && (s.polls[q].done < |s.polls[q].batch| ==> !HasChannel(s.links[s.polls[q].process]))
    case Record(q, _, _, _) =>
      && Awaiting(s, q) && ResultOf(s, q).Some? && s.polls[q].txn == Open
      && s.polls[q].batch[s.polls[q].done] in s.rows
    case RecordFails(q) => Awaiting(s, q) && ResultOf(s, q).Some?
    case SendCommit(q) =>
      InPoll(s, q) && s.polls[q].current.None? && s.polls[q].done == |s.polls[q].batch| && s.polls[q].txn == Open
    case DbCommit(q) => q in s.polls && s.polls[q].txn == Committing
    case DbAbort(q) => q in s.polls && Alive(s.polls[q])
    case Crash(p) => p in s.links
  }

  /** The error leaves the handler: the transaction rolls back and the iteration ends. */
  function EndPoll(s: State, q: nat, poll: Poll): State
    requires q in s.polls
  {
    s.(polls := s.polls[q := poll], busy := s.busy - {poll.process})
  }

  function RolledBack(poll: Poll): Poll {
    poll.(txn := if poll.txn == Open then Aborted else poll.txn, current := None)
  }

  ghost function DoFetch(s: State, q: nat, p: nat, at: Time): State {
    var batch := Batch(s.rows, Candidates(s.rows, Locked(s), at), s.config.batchSize);
    s.(polls := s.polls[q := Poll.Poll(p, Open, batch, 0, None, map[], map[], map[])], busy := s.busy[p := q])
  }

  function DoPublish(s: State, q: nat, accepted: bool): State
    requires Enabled(s, Publish(q, accepted))
  {
    var poll := s.polls[q];
    var link := s.links[poll.process];
    var message := MessageOf(s.rows[poll.batch[poll.done]]);
    var channel := link.manager.channel.value;
    s.(links := s.links[poll.process :=
         if accepted then M.Send(link, message, channel) else M.SendThrows(link, message, channel)],
       polls := s.polls[q := poll.(current := Some(|link.attempts|))])
  }

  /** What the worker records of a settled publish; None when the error is rethrown. */
  function Heard(result: M.Result, clock: Time, databaseNow: Time, error: string): Option<Answer> {
    match result
    case Confirmed => Some(Answer(Outbox.Confirmed, clock, databaseNow, false))
    case Rejected => Some(Answer(Outbox.Rejected(error), clock, databaseNow, false))
    case NotAttempted => None
  }

  function Noted(s: State, poll: Poll, answer: Answer): Poll
    requires poll.done < |poll.batch| && poll.batch[poll.done] in s.rows && poll.current.Some?
  {
    var id := poll.batch[poll.done];
    poll.(done := poll.done + 1, current := None,
          used := poll.used[id := poll.current.value],
          answers := poll.answers[id := answer],
          writes := poll.writes[id := AfterAnswer(s.rows[id], answer, s.config)])
  }

  function DoRecord(s: State, q: nat, clock: Time, databaseNow: Time, error: string): State
    requires Enabled(s, Record(q, clock, databaseNow, error))
  {
    var poll := s.polls[q];
    var heard := Heard(ResultOf(s, q).value, clock, databaseNow, error);
    if heard.None? then EndPoll(s, q, RolledBack(poll))
    else s.(polls := s.polls[q := Noted(s, poll, heard.value)])
  }

  function FailuresOf(s: State, id: Id): set<nat> {
    if id in s.failedBy then s.failedBy[id] else {}
  }

  function DoDbCommit(s: State, q: nat): State
    requires q in s.polls
  {
    var poll := s.polls[q];
    s.(rows := s.rows + poll.writes,
       polls := s.polls[q := poll.(txn := Committed)],
       publishedBy := s.publishedBy + (map id | id in poll.writes && poll.writes[id].status == Published :: q),
       failedBy := s.failedBy
         + (map id | id in poll.writes && poll.writes[id].status != Published :: FailuresOf(s, id) + {q}))
  }

  ghost function Apply(s: State, step: Step): State
    requires Enabled(s, step)
  {
    match step
    case Tick(now) => s.(now := now)
    case Insert(event) => s.(rows := s.rows[event.id := event])
    case StartProcess(p) => s.(links := s.links[p := M.FRESH])
    case LinkSignal(p, signal) => s.(links := s.links[p := M.Handle(s.links[p], signal)])
    case Fetch(q, p, at) => DoFetch(s, q, p, at)
    case Publish(q, accepted) => DoPublish(s, q, accepted)
    case PollThrows(q) => EndPoll(s, q, RolledBack(s.polls[q]))
    case Record(q, clock, databaseNow, error) => DoRecord(s, q, clock, databaseNow, error)
    case RecordFails(q) => EndPoll(s, q, RolledBack(s.polls[q]))
    case SendCommit(q) => EndPoll(s, q, s.polls[q].(txn := Committing))
    case DbCommit(q) => DoDbCommit(s, q)
    case DbAbort(q) => s.(polls := s.polls[q := s.polls[q].(txn := Aborted)])
    case Crash(p) => s.(dead := s.dead + {p}, busy := s.busy - {p})
  }

  ghost predicate Next(s: State, s': State) {
    exists step :: Enabled(s, step) && s' == Apply(s, step)
  }

  ghost predicate Linked(run: seq<State>, i: int)
    requires 0 <= i < |run| - 1
  {
    Next(run[i], run[i + 1])
  }

  ghost predicate IsRun(run: seq<State>) {
    && |run| > 0 && ValidConfig(run[0].config) && run[0] == Initial(run[0].config)
    && forall i :: 0 <= i < |run| - 1 ==> Linked(run, i)
  }

  ghost predicate Reachable(s: State) {
    exists run :: IsRun(run) && run[|run| - 1] == s
  }

  // ----- the invariant -----

  predicate RowOk(s: State, id: Id)
    requires id in s.rows
  {
    && s.rows[id].id == id
    && WithinAttempts(s.rows[id], s.config.maxAttempts)
    && |FailuresOf(s, id)| == s.rows[id].attempts
    && (s.rows[id].status == Published <==> id in s.publishedBy)
  }

  /** Poll `q` recorded `id` on the strength of an attempt that settled as `result`, carrying the row's own message. */
  predicate Backed(s: State, q: nat, id: Id, result: M.Result) {
    && q in s.polls && id in s.rows && id in s.polls[q].used
    && s.polls[q].process in s.links
    && var attempts := s.links[s.polls[q].process].attempts;
       var a := s.polls[q].used[id];
       a < |attempts| && attempts[a].message == MessageOf(s.rows[id]) && attempts[a].result == Some(result)
  }

  predicate HistoryOk(s: State, id: Id) {
    && (id in s.publishedBy ==>
          Backed(s, s.publishedBy[id], id, M.Confirmed) && s.polls[s.publishedBy[id]].txn == Committed)
    && (forall q :: q in FailuresOf(s, id) ==> Backed(s, q, id, M.Rejected) && s.polls[q].txn == Committed)
  }

  function ResultBehind(answer: Answer): M.Result {
    match answer.outcome
    case Confirmed => M.Confirmed
    case Rejected(_) => M.Rejected
    case NotAttempted(_) => M.NotAttempted
  }

  /** The buffered row is the outcome function's value for the row, which the transaction holds locked. */
  predicate WriteOk(s: State, q: nat, id: Id)
    requires q in s.polls && id in s.polls[q].writes
  {
    && id in s.rows && id in s.polls[q].answers && s.rows[id].status == Pending
    && var answer := s.polls[q].answers[id];
       && Undisturbed(answer)
       && s.polls[q].writes[id] == AfterAnswer(s.rows[id], answer, s.config)
       && Backed(s, q, id, ResultBehind(answer))
  }

  predicate PollShape(s: State, q: nat)
    requires q in s.polls
  {
    var poll := s.polls[q];
    && poll.process in s.links
    && poll.done <= |poll.batch|
    && (forall i, j :: 0 <= i < j < |poll.batch| ==> poll.batch[i] != poll.batch[j])
    && (forall i :: 0 <= i < |poll.batch| ==> poll.batch[i] in s.rows)
    && poll.writes.Keys == poll.used.Keys
    && (forall id :: id in poll.writes ==> id in poll.batch[..poll.done])
    && (poll.current.Some? ==>
          && poll.done < |poll.batch|
          && poll.current.value < |s.links[poll.process].attempts|
          && s.links[poll.process].attempts[poll.current.value].message == MessageOf(s.rows[poll.batch[poll.done]]))
    && (forall id :: id in poll.used ==> poll.used[id] < |s.links[poll.process].attempts|)
  }

  predicate PollHolds(s: State, q: nat)
    requires q in s.polls
  {
    var poll := s.polls[q];
    Alive(poll) ==>
      && (forall i :: 0 <= i < |poll.batch| ==> poll.batch[i] in s.rows && s.rows[poll.batch[i]].status == Pending)
      && (forall id :: id in poll.writes ==> WriteOk(s, q, id))
      && (forall i :: 0 <= i < poll.done && i < |poll.batch| ==> poll.batch[i] in poll.writes)
      && (poll.txn == Committing ==> poll.done == |poll.batch|)
  }

  /** The attempts a poll has used or is awaiting. */
  function Touched(poll: Poll): set<nat> {
    (set id | id in poll.used :: poll.used[id]) + (if poll.current.Some? then {poll.current.value} else {})
  }

  /** Distinct live polls hold disjoint batches; distinct polls of one process never share an attempt. */
  predicate PollsApart(a: Poll, b: Poll) {
    && (Alive(a) && Alive(b) ==> forall id :: id in a.batch ==> id !in b.batch)
    && (a.process == b.process ==> Touched(a) !! Touched(b))
  }

  predicate UsedApart(poll: Poll) {
    poll.current.Some? ==> forall i :: i in poll.used ==> poll.used[i] != poll.current.value
  }

  /** A process awaits its publishes one at a time. */
  predicate LinkQuiet(s: State, p: nat)
    requires p in s.links
  {
    && M.LinkOk(s.links[p])
    && (p !in s.dead ==>
          if p in s.busy && s.busy[p] in s.polls && s.polls[s.busy[p]].current.Some?
          then forall a :: 0 <= a < |s.links[p].attempts| && a != s.polls[s.busy[p]].current.value ==>
                 s.links[p].attempts[a].result.Some?
          else M.Quiet(s.links[p]))
    && (p in s.busy ==> p !in s.dead && s.busy[p] in s.polls && s.polls[s.busy[p]].process == p)
  }

  predicate Faithful(s: State, message: M.Message) {
    message.id in s.rows && message == MessageOf(s.rows[message.id])
  }

  predicate LinkFaithful(s: State, p: nat)
    requires p in s.links
  {
    forall a :: 0 <= a < |s.links[p].attempts| ==> Faithful(s, s.links[p].attempts[a].message)
  }

  ghost predicate RowsOk(s: State) {
    forall id {:trigger RowOk(s, id)} :: id in s.rows ==> RowOk(s, id)
  }

  ghost predicate HistoriesOk(s: State) {
    forall id :: HistoryOk(s, id)
  }

  predicate PollOk(s: State, q: nat)
    requires q in s.polls
  {
    PollShape(s, q) && PollHolds(s, q) && UsedApart(s.polls[q])
  }

  ghost predicate PollsOk(s: State) {
    forall q {:trigger PollOk(s, q)} :: q in s.polls ==> PollOk(s, q)
  }

  ghost predicate PairsOk(s: State) {
    forall q, r {:trigger PollsApart(s.polls[q], s.polls[r])} ::
      q in s.polls && r in s.polls && q != r ==> PollsApart(s.polls[q], s.polls[r])
  }

  ghost predicate LinksOk(s: State) {
    && s.busy.Keys <= s.links.Keys
    && forall p :: p in s.links ==> LinkQuiet(s, p) && LinkFaithful(s, p)
  }

  ghost predicate Inv(s: State) {
    && ValidConfig(s.config)
    && RowsOk(s)
    && HistoriesOk(s)
    && PollsOk(s)
    && PairsOk(s)
    && LinksOk(s)
  }
}
