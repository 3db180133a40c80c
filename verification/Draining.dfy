/**
 One worker process: the lifecycle that schedules its iterations and the polls they run. An iteration ends only when
 its poll has, so what a shutdown waits for is proved, not assumed, to come: without the broker and without any other
 process, the poll in flight ends and the shutdown finishes, in a bounded number of steps.
 */
module Draining {
  import opened Options
  import Outbox
  import D = Delivery
  import DeliveryRuns
  import L = Lifecycle
  import M = Messaging

  /** Process `id` among all the processes of the delivery state. */
  datatype Process = Process(id: nat, d: D.State, l: L.Service)

  datatype Step = Deliver(delivery: D.Step) | Live(life: L.Step)

  /** Polls begin only in an iteration, and an iteration does not end before its poll. */
  ghost predicate Enabled(j: Process, step: Step) {
    match step
    case Deliver(delivery) =>
      && D.Enabled(j.d, delivery)
      && (delivery.Crash? ==> delivery.p != j.id)
      && (delivery.Fetch? && delivery.p == j.id ==> j.l.worker.active != {})
    case Live(life) => L.Enabled(j.l, life) && (life.IterationEnds? ==> j.id !in j.d.busy)
  }

  ghost function Apply(j: Process, step: Step): Process
    requires Enabled(j, step)
  {
    match step
    case Deliver(delivery) => j.(d := D.Apply(j.d, delivery))
    case Live(life) => j.(l := L.Apply(j.l, life))
  }

  ghost predicate Next(j: Process, j': Process) {
    exists step :: Enabled(j, step) && j' == Apply(j, step)
  }

  ghost predicate Linked(run: seq<Process>, i: int)
    requires 0 <= i < |run| - 1
  {
    Next(run[i], run[i + 1])
  }

  ghost predicate IsRun(run: seq<Process>) {
    && |run| > 0 && Outbox.ValidConfig(run[0].d.config)
    && run[0] == Process(run[0].id, D.Initial(run[0].d.config), L.NEW_SERVICE)
    && forall i :: 0 <= i < |run| - 1 ==> Linked(run, i)
  }

  ghost predicate Reachable(j: Process) {
    exists run :: IsRun(run) && run[|run| - 1] == j
  }

  // ----- a poll belongs to an iteration -----

  ghost predicate Inv(j: Process) {
    && D.Inv(j.d) && L.Inv(j.l)
    && (j.id in j.d.busy ==> j.l.worker.active != {})
  }

  /** Only a fetch of its own puts a process into a poll. */
  lemma OnlyFetchBegins(s: D.State, s': D.State, step: D.Step, p: nat)
    requires D.Enabled(s, step) && s' == D.Apply(s, step) && p in s'.busy && p !in s.busy
    ensures step.Fetch? && step.p == p
  {
  }

  lemma StepKeepsInv(j: Process, step: Step)
    requires Inv(j) && Enabled(j, step)
    ensures Inv(Apply(j, step))
  {
    match step
    case Deliver(delivery) =>
      DeliveryRuns.StepKeepsInv(j.d, delivery);
      if j.id in D.Apply(j.d, delivery).busy && j.id !in j.d.busy {
        OnlyFetchBegins(j.d, D.Apply(j.d, delivery), delivery, j.id);
      }
    case Live(life) =>
      L.StepKeepsInv(j.l, life);
      if !life.IterationEnds? && j.l.worker.active != {} { L.InFlightStays(j.l, life); }
  }

  lemma {:induction false} RunInv(run: seq<Process>, i: nat)
    requires IsRun(run) && i < |run|
    ensures Inv(run[i])
  {
    if i > 0 {
      RunInv(run, i - 1);
      assert Linked(run, i - 1);
      var step :| Enabled(run[i - 1], step) && run[i] == Apply(run[i - 1], step);
      StepKeepsInv(run[i - 1], step);
    }
  }

  lemma ReachableInv(j: Process)
    requires Reachable(j)
    ensures Inv(j)
  {
    var run :| IsRun(run) && run[|run| - 1] == j;
    RunInv(run, |run| - 1);
  }

  /** Knex is destroyed under no poll, unless closing the server failed or the deadline forced the exit. */
  lemma DestroyedAfterPolls(j: Process)
    requires Reachable(j) && j.l.knexDestroys > 0 && !j.l.exited
    ensures j.id in j.d.busy ==> j.l.closeFailed && j.l.workerStarted
  {
    ReachableInv(j);
  }

  // ----- the poll in flight ends -----

  /** Steps of poll `q` of process `p` that nobody else has to help with. */
  predicate Unaided(step: D.Step, p: nat, q: nat) {
    match step
    case LinkSignal(r, signal) => r == p && signal.TimeoutFires?
    case Publish(r, accepted) => r == q && accepted
    case Record(r, _, _, _) => r == q
    case RecordFails(r) => r == q
    case PollThrows(r) => r == q
    case SendCommit(r) => r == q
    case _ => false
  }

  /** A channel is left that no publish in flight will give up when it times out. */
  predicate ChannelLeft(link: M.Link, current: Option<nat>) {
    && D.HasChannel(link)
    && (current.Some? && current.value < |link.attempts| && link.attempts[current.value].result.None? ==>
          link.attempts[current.value].channel != link.manager.channel.value)
  }

  function AttemptRank(link: M.Link, current: Option<nat>): nat {
    if current.None? then 0
    else if current.value < |link.attempts| && link.attempts[current.value].result.Some? then 1
    else 2
  }

  /** How many such steps are left at most: without the broker, one timeout uses up the channel. */
  function PollRank(s: D.State, p: nat): nat {
    if p !in s.busy || s.busy[p] !in s.polls || p !in s.links then 0
    else
      var current := s.polls[s.busy[p]].current;
      AttemptRank(s.links[p], current) + (if ChannelLeft(s.links[p], current) then 4 else 1)
  }

  /** A publish that has not settled times out, and gives up its channel. */
  lemma TimesOut(s: D.State, p: nat) returns (step: D.Step)
    requires D.Inv(s) && p in s.busy && D.Awaiting(s, s.busy[p]) && D.ResultOf(s, s.busy[p]).None?
    ensures D.Enabled(s, step) && Unaided(step, p, s.busy[p]) && PollRank(D.Apply(s, step), p) < PollRank(s, p)
  {
    assert D.LinkQuiet(s, p);
    step := D.LinkSignal(p, M.TimeoutFires(s.polls[s.busy[p]].current.value));
  }

  /** A settled one is recorded. */
  lemma Records(s: D.State, p: nat, q: nat)
    requires D.Enabled(s, D.Record(q, 0, 0, "")) && s.polls[q].process == p && s.busy[p] == q
    ensures PollRank(D.DoRecord(s, q, 0, 0, ""), p) < PollRank(s, p)
  {
  }

  /** Leaving the poll is the end of it. */
  lemma EndsPoll(s: D.State, p: nat, q: nat, poll: D.Poll)
    requires q in s.polls && poll.process == p && p in s.busy && s.busy[p] in s.polls && p in s.links
    ensures PollRank(D.EndPoll(s, q, poll), p) == 0 < PollRank(s, p)
  {
  }

  /** If the transaction is gone, the update fails and with it the poll. */
  lemma RecordsOrFails(s: D.State, p: nat) returns (step: D.Step)
    requires D.Inv(s) && p in s.busy && D.Awaiting(s, s.busy[p]) && D.ResultOf(s, s.busy[p]).Some?
    ensures D.Enabled(s, step) && Unaided(step, p, s.busy[p]) && PollRank(D.Apply(s, step), p) < PollRank(s, p)
  {
    var q := s.busy[p];
    assert D.PollOk(s, q) && D.LinkQuiet(s, p);
    if s.polls[q].txn == D.Open {
      step := D.Record(q, 0, 0, "");
      Records(s, p, q);
    } else {
      step := D.RecordFails(q);
      EndsPoll(s, p, q, D.RolledBack(s.polls[q]));
    }
  }

  /** A poll that is done commits, or throws if its transaction is gone; one without a channel throws. */
  lemma Leaves(s: D.State, p: nat) returns (step: D.Step)
    requires D.Inv(s) && p in s.busy && D.InPoll(s, s.busy[p]) && s.polls[s.busy[p]].process == p
    requires s.polls[s.busy[p]].current.None?
    requires s.polls[s.busy[p]].done < |s.polls[s.busy[p]].batch| ==> !D.HasChannel(s.links[p])
    ensures D.Enabled(s, step) && Unaided(step, p, s.busy[p]) && PollRank(D.Apply(s, step), p) < PollRank(s, p)
  {
    var q := s.busy[p];
    if s.polls[q].done == |s.polls[q].batch| && s.polls[q].txn == D.Open {
      step := D.SendCommit(q);
      EndsPoll(s, p, q, s.polls[q].(txn := D.Committing));
    } else {
      step := D.PollThrows(q);
      EndsPoll(s, p, q, D.RolledBack(s.polls[q]));
    }
  }

  /** One with a channel publishes on it; nobody need confirm. */
  lemma PublishesOnce(s: D.State, p: nat) returns (step: D.Step)
    requires D.Inv(s) && p in s.busy && D.InPoll(s, s.busy[p]) && s.polls[s.busy[p]].process == p
    requires s.polls[s.busy[p]].current.None? && s.polls[s.busy[p]].done < |s.polls[s.busy[p]].batch|
    requires D.HasChannel(s.links[p])
    ensures D.Enabled(s, step) && Unaided(step, p, s.busy[p]) && PollRank(D.Apply(s, step), p) < PollRank(s, p)
  {
    assert D.PollOk(s, s.busy[p]);
    step := D.Publish(s.busy[p], true);
  }

  lemma PollAdvances(s: D.State, p: nat) returns (step: D.Step)
    requires D.Inv(s) && p in s.busy
    ensures D.Enabled(s, step) && Unaided(step, p, s.busy[p]) && PollRank(D.Apply(s, step), p) < PollRank(s, p)
  {
    var q := s.busy[p];
    assert D.LinkQuiet(s, p);
    assert D.PollOk(s, q);
    if s.polls[q].current.Some? {
      if D.ResultOf(s, q).None? { step := TimesOut(s, p); } else { step := RecordsOrFails(s, p); }
    } else if s.polls[q].done < |s.polls[q].batch| && D.HasChannel(s.links[p]) {
      step := PublishesOnce(s, p);
    } else {
      step := Leaves(s, p);
    }
  }

  // ----- and the shutdown finishes -----

  /** What the process does by itself: its poll, and the event its shutdown waits for. */
  predicate Own(j: Process, step: Step) {
    match step
    case Deliver(delivery) => j.id in j.d.busy && Unaided(delivery, j.id, j.d.busy[j.id])
    case Live(life) => life == L.Awaits(j.l)
  }

  /** `j'` can be reached in at most `n` such steps. */
  ghost predicate Within(j: Process, j': Process, n: nat)
    decreases n
  {
    j == j' || (n > 0 && exists step :: Enabled(j, step) && Own(j, step) && Within(Apply(j, step), j', n - 1))
  }

  function Rank(j: Process): nat {
    L.Distance(j.l) + PollRank(j.d, j.id)
  }

  predicate ShuttingDown(j: Process) {
    j.l.phase == L.PhaseStopping && !j.l.exited
  }

  lemma DrainAdvances(j: Process) returns (step: Step)
    requires Inv(j) && ShuttingDown(j)
    ensures Enabled(j, step) && Own(j, step) && Rank(Apply(j, step)) < Rank(j)
    ensures ShuttingDown(Apply(j, step)) || Apply(j, step).l.phase == L.PhaseStopped
    ensures !Apply(j, step).l.exited
  {
    L.Advances(j.l);
    if L.Awaits(j.l).IterationEnds? && j.id in j.d.busy {
      var delivery := PollAdvances(j.d, j.id);
      step := Deliver(delivery);
    } else {
      step := Live(L.Awaits(j.l));
    }
  }

  lemma {:induction false} Drains(j: Process) returns (j': Process)
    requires Inv(j) && ShuttingDown(j)
    ensures Within(j, j', Rank(j)) && j'.l.phase == L.PhaseStopped && !j'.l.exited && Inv(j')
    decreases Rank(j)
  {
    var step := DrainAdvances(j);
    StepKeepsInv(j, step);
    j' := Apply(j, step);
    if ShuttingDown(j') { j' := Drains(j'); }
    WithinMore(Apply(j, step), j', Rank(Apply(j, step)), Rank(j) - 1);
  }

  lemma {:induction false} WithinMore(j: Process, j': Process, m: nat, n: nat)
    requires Within(j, j', m) && m <= n
    ensures Within(j, j', n)
    decreases m
  {
    if j != j' {
      var step :| Enabled(j, step) && Own(j, step) && Within(Apply(j, step), j', m - 1);
      WithinMore(Apply(j, step), j', m - 1, n - 1);
    }
  }

  lemma RankBounded(j: Process)
    requires L.Inv(j.l) && ShuttingDown(j)
    ensures Rank(j) <= 37
  {
  }

  lemma StoppedProcess(j: Process)
    requires Inv(j) && j.l.phase == L.PhaseStopped && !j.l.exited
    ensures j.l.stopAt == L.Finished && j.l.knexDestroys == 1
    ensures j.id in j.d.busy ==> j.l.closeFailed && j.l.workerStarted
  {
  }

  /**
   From every reachable state in which a shutdown has begun and not been forced, the process can finish it by itself
   within Rank(j) steps, at most 37, whatever the broker and the other processes do or fail to do.
   */
  lemma ShutdownFinishes(j: Process) returns (j': Process)
    requires Reachable(j) && ShuttingDown(j)
    ensures Within(j, j', Rank(j)) && Rank(j) <= 37
    ensures j'.l.stopAt == L.Finished && !j'.l.exited && j'.l.knexDestroys == 1
    ensures j'.id in j'.d.busy ==> j'.l.closeFailed && j'.l.workerStarted
  {
    ReachableInv(j);
    RankBounded(j);
    j' := Drains(j);
    StoppedProcess(j');
  }
}
