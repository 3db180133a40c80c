/**
 The payment protocol and the delivery engine over one database: the commit that makes a payment durable inserts
 its outbox row, and workers deliver that row. What the broker confirms is then what the payments table says.
 */
module EndToEnd {
  import opened Payments
  import P = Protocol
  import ProtocolInvariant
  import ProtocolRuns
  import CrossTable
  import Outbox
  import D = Delivery
  import DeliveryRuns
  import DeliveryTheorems
  import M = Messaging

  datatype Joint = Joint(p: P.State, d: D.State)

  datatype Step =
    | Work(step: P.Step)
    | Commit(id: nat, createdAt: Time)
    | Deliver(delivery: D.Step)

  ghost predicate Enabled(j: Joint, step: Step) {
    match step
    case Work(work) => !work.DbCommit? && P.Enabled(j.p, work)
    case Commit(id, _) => P.Enabled(j.p, P.DbCommit(id))
    case Deliver(delivery) => !delivery.Insert? && D.Enabled(j.d, delivery)
  }

  /** `insertPending` for the envelope of a committing call. */
  function RowFor(e: Envelope, createdAt: Time): Outbox.OutboxEvent {
    Outbox.NewEvent(e.eventId, e.eventType, e, createdAt)
  }

  ghost function Apply(j: Joint, step: Step): Joint
    requires Enabled(j, step)
  {
    match step
    case Work(work) => j.(p := P.Apply(j.p, work))
    case Commit(id, createdAt) =>
      var e := j.p.callers[id].event.value;
      Joint(P.DoDbCommit(j.p, id), j.d.(rows := j.d.rows[e.eventId := RowFor(e, createdAt)]))
    case Deliver(delivery) => j.(d := D.Apply(j.d, delivery))
  }

  ghost predicate Next(j: Joint, j': Joint) {
    exists step :: Enabled(j, step) && j' == Apply(j, step)
  }

  ghost predicate Linked(run: seq<Joint>, i: int)
    requires 0 <= i < |run| - 1
  {
    Next(run[i], run[i + 1])
  }

  ghost predicate IsRun(run: seq<Joint>) {
    && |run| > 0 && Outbox.ValidConfig(run[0].d.config)
    && run[0] == Joint(P.INIT, D.Initial(run[0].d.config))
    && forall i :: 0 <= i < |run| - 1 ==> Linked(run, i)
  }

  ghost predicate Reachable(j: Joint) {
    exists run :: IsRun(run) && run[|run| - 1] == j
  }

  /** The delivery table is the protocol's set of recorded events. */
  ghost predicate Mirrors(j: Joint) {
    && j.d.rows.Keys == j.p.events.Keys
    && forall e :: e in j.d.rows ==> Carries(j.d.rows[e], j.p.events[e])
  }

  predicate Carries(row: Outbox.OutboxEvent, e: Envelope) {
    row.routingKey == e.eventType && row.payload == e
  }

  /** No step of the delivery system but an insert adds a row or changes what a row carries. */
  lemma DeliveryKeepsContent(s: D.State, s': D.State, step: D.Step)
    requires D.Inv(s) && D.Enabled(s, step) && !step.Insert? && s' == D.Apply(s, step)
    ensures s'.rows.Keys == s.rows.Keys
    ensures forall id :: id in s.rows ==> D.MessageOf(s'.rows[id]) == D.MessageOf(s.rows[id])
  {
    if step.DbCommit? {
      CommitKeepsContent(s, s', step.q);
    } else if s'.rows != s.rows {
      DeliveryTheorems.OnlyCommitsChangeRows(s, s', step);
    }
  }

  lemma WritesAreRows(s: D.State, q: nat)
    requires q in s.polls && s.polls[q].txn == D.Committing && D.PollHolds(s, q)
    ensures forall id :: id in s.polls[q].writes ==> id in s.rows
  {
    forall id | id in s.polls[q].writes ensures id in s.rows { assert D.WriteOk(s, q, id); }
  }

  lemma CommitKeepsContent(s: D.State, s': D.State, q: nat)
    requires D.Inv(s) && D.Enabled(s, D.DbCommit(q)) && s' == D.DoDbCommit(s, q)
    ensures s'.rows.Keys == s.rows.Keys
    ensures forall id :: id in s.rows ==> D.MessageOf(s'.rows[id]) == D.MessageOf(s.rows[id])
  {
    assert D.PollOk(s, q);
    DeliveryRuns.CommitExtends(s, s', q);
    WritesAreRows(s, q);
  }

  lemma CommittingEventIsNew(s: P.State, id: nat)
    requires P.Reachable(s) && P.Enabled(s, P.DbCommit(id))
    ensures s.callers[id].event.value.eventId !in s.events
  {
    ProtocolRuns.ReachableInv(s);
    assert ProtocolInvariant.CallerOk(s, s.callers[id]) && ProtocolInvariant.EventIdOk(s, s.callers[id]);
  }

  /** A commit's outbox row is new, and it is the row `insertPending` inserts. */
  lemma CommitInserts(j: Joint, j': Joint, id: nat, createdAt: Time)
    requires P.Reachable(j.p) && D.Reachable(j.d) && Mirrors(j) && Enabled(j, Commit(id, createdAt))
    requires j' == Apply(j, Commit(id, createdAt))
    ensures P.Reachable(j'.p) && D.Reachable(j'.d) && Mirrors(j')
  {
    CommittingEventIsNew(j.p, id);
    var _ := ProtocolRuns.ReachesNext(j.p, P.DbCommit(id));
    DeliveryTheorems.ReachesNext(j.d, D.Insert(RowFor(j.p.callers[id].event.value, createdAt)));
  }

  /** And its columns are the envelope's, with the table's defaults, created at the instant of the insert. */
  lemma CommitInsertsNewRow(j: Joint, j': Joint, id: nat, createdAt: Time)
    requires Reachable(j) && Enabled(j, Commit(id, createdAt)) && j' == Apply(j, Commit(id, createdAt))
    ensures var e := j.p.callers[id].event.value;
            && e.eventId !in j.d.rows && j'.d.rows.Keys == j.d.rows.Keys + {e.eventId}
            && Outbox.IsNew(j'.d.rows[e.eventId], e.eventId, e.eventType, e, createdAt)
            && forall other :: other in j.d.rows ==> j'.d.rows[other] == j.d.rows[other]
  {
    ReachableOk(j);
    CommittingEventIsNew(j.p, id);
  }

  lemma WorkKeepsEvents(s: P.State, step: P.Step)
    requires P.Reachable(s) && P.Enabled(s, step) && !step.DbCommit?
    ensures P.Apply(s, step).events == s.events
  {
    ProtocolRuns.ReachableInv(s);
    ProtocolRuns.StepEffect(s, P.Apply(s, step), step);
  }

  lemma StepKeeps(j: Joint, step: Step)
    requires P.Reachable(j.p) && D.Reachable(j.d) && Mirrors(j) && Enabled(j, step)
    ensures P.Reachable(Apply(j, step).p) && D.Reachable(Apply(j, step).d) && Mirrors(Apply(j, step))
  {
    match step
    case Work(work) =>
      var _ := ProtocolRuns.ReachesNext(j.p, work);
      WorkKeepsEvents(j.p, work);
    case Commit(id, createdAt) => CommitInserts(j, Apply(j, step), id, createdAt);
    case Deliver(delivery) =>
      DeliveryTheorems.ReachableInv(j.d);
      DeliveryTheorems.ReachesNext(j.d, delivery);
      DeliveryKeepsContent(j.d, D.Apply(j.d, delivery), delivery);
  }

  lemma DeliveryStarts(config: Outbox.Config)
    requires Outbox.ValidConfig(config)
    ensures D.Reachable(D.Initial(config))
  {
    assert D.IsRun([D.Initial(config)]);
  }

  lemma {:induction false} RunOk(run: seq<Joint>, i: nat)
    requires IsRun(run) && i < |run|
    ensures P.Reachable(run[i].p) && D.Reachable(run[i].d) && Mirrors(run[i])
  {
    if i == 0 {
      ProtocolRuns.InitReachable();
      DeliveryStarts(run[0].d.config);
    } else {
      RunOk(run, i - 1);
      assert Linked(run, i - 1);
      var step :| Enabled(run[i - 1], step) && run[i] == Apply(run[i - 1], step);
      StepKeeps(run[i - 1], step);
    }
  }

  lemma ReachableOk(j: Joint)
    requires Reachable(j)
    ensures P.Reachable(j.p) && D.Reachable(j.d) && Mirrors(j)
  {
    var run :| IsRun(run) && run[|run| - 1] == j;
    RunOk(run, |run| - 1);
  }

  /** Every payment has one authorize-stage outbox row, and one capture-stage row exactly when it has been captured. */
  lemma EveryOutcomeHasItsRow(j: Joint, p: Id)
    requires Reachable(j)
    ensures j.d.rows.Keys == j.p.events.Keys
    ensures p in j.p.payments <==> CrossTable.OneAuthorizeEvent(j.p, p)
    ensures CrossTable.IsCaptured(j.p, p) <==> CrossTable.OneCaptureEvent(j.p, p)
  {
    ReachableOk(j);
    CrossTable.CreateAgreement(j.p, p);
    CrossTable.CaptureAgreement(j.p, p);
  }

  /**
   A PUBLISHED row stands for a message the broker confirmed and never returned, under the row's own routing key,
   whose body announces a status the payment has reached: its present one, or AUTHORIZED before a capture. It carries
   the correlation id of the request whose commit recorded it.
   */
  lemma PublishedTellsThePayment(j: Joint, e: Id) returns (process: nat, a: nat)
    requires Reachable(j) && e in j.d.rows && j.d.rows[e].status == Outbox.Published
    ensures process in j.d.links && a < |j.d.links[process].attempts|
    ensures e in j.p.events
    ensures var attempt := j.d.links[process].attempts[a];
            && attempt.acked && !attempt.returned
            && attempt.message == M.Message(e, j.p.events[e].eventType, j.p.events[e])
    ensures exists id :: CrossTable.RecordedBy(j.p, e, id)
    ensures forall id :: CrossTable.RecordedBy(j.p, e, id) ==>
      j.d.links[process].attempts[a].message.body.correlationId == j.p.callers[id].cmd.correlationId
    ensures var body := j.p.events[e];
            && body.aggregateId in j.p.payments
            && AnnouncedStatus(body) == (if AuthorizeStage(body) && CrossTable.IsCaptured(j.p, body.aggregateId)
                                         then Payments.Authorized else j.p.payments[body.aggregateId].status)
  {
    ReachableOk(j);
    process, a := DeliveryTheorems.PublishedWasRouted(j.d, e);
    CrossTable.EventsTellTheStatus(j.p, e);
  }
}
