/** The outbox table, the ordered skip-locked batch, and the poll that publishes a batch in one transaction. */
module Outbox {
  import opened Options
  import opened Payments
  import opened RetryDelay

  datatype DeliveryStatus = Pending | Published | Exhausted    // Exhausted is the table's FAILED

  datatype OutboxEvent = OutboxEvent(
    id: Id,
    routingKey: EventType,
    payload: Envelope,
    status: DeliveryStatus,
    attempts: nat,
    nextRetryAt: Option<Time>,
    lastError: Option<string>,
    createdAt: Time,
    publishedAt: Option<Time>)

  type Rows = map<Id, OutboxEvent>

  datatype Config = Config(batchSize: nat, maxAttempts: nat, retryBaseDelayMs: int, retryMaxDelayMs: int)

  predicate ValidConfig(config: Config) {
    config.batchSize > 0 && config.maxAttempts > 0 && config.retryBaseDelayMs > 0 && config.retryMaxDelayMs > 0
  }

  predicate Keyed(rows: Rows) {
    forall id :: id in rows ==> rows[id].id == id
  }

  function NewEvent(id: Id, routingKey: EventType, payload: Envelope, createdAt: Time): OutboxEvent {
    OutboxEvent(id, routingKey, payload, Pending, 0, None, None, createdAt, None)
  }

  /** The inserted columns, and the table's defaults: PENDING, no attempts, created at the instant of the insert. */
  predicate IsNew(row: OutboxEvent, id: Id, routingKey: EventType, payload: Envelope, createdAt: Time) {
    && row.id == id && row.routingKey == routingKey && row.payload == payload
    && row.status == Pending && row.attempts == 0
    && row.nextRetryAt.None? && row.lastError.None? && row.publishedAt.None?
    && row.createdAt == createdAt
  }

  // ----- the batch -----

  predicate Eligible(row: OutboxEvent, now: Time) {
    row.status == Pending && (row.nextRetryAt.None? || row.nextRetryAt.value <= now)
  }

  /** ORDER BY created_at, id. */
  predicate Before(rows: Rows, a: Id, b: Id)
    requires a in rows && b in rows
  {
    rows[a].createdAt < rows[b].createdAt || (rows[a].createdAt == rows[b].createdAt && a < b)
  }

  function Candidates(rows: Rows, locked: set<Id>, now: Time): set<Id> {
    set id | id in rows && id !in locked && Eligible(rows[id], now)
  }

  predicate IsFirst(rows: Rows, ids: set<Id>, x: Id)
    requires ids <= rows.Keys
  {
    x in ids && forall y :: y in ids && y != x ==> Before(rows, x, y)
  }

  lemma {:induction false} FirstExists(rows: Rows, ids: set<Id>)
    requires ids <= rows.Keys && ids != {}
    ensures exists x :: IsFirst(rows, ids, x)
    decreases |ids|
  {
    var y :| y in ids;
    var rest := ids - {y};
    if rest == {} {
      assert ids == {y};
      assert IsFirst(rows, ids, y);
    } else {
      FirstExists(rows, rest);
      var x :| IsFirst(rows, rest, x);
      var first := if Before(rows, x, y) then x else y;
      forall z | z in ids && z != first ensures Before(rows, first, z) {
        assert z == y || z in rest;
      }
      assert IsFirst(rows, ids, first);
    }
  }

  function First(rows: Rows, ids: set<Id>): (x: Id)
    requires ids <= rows.Keys && ids != {}
    ensures IsFirst(rows, ids, x)
  {
    FirstExists(rows, ids);
    var x :| IsFirst(rows, ids, x);
    x
  }

  /** The first `limit` of a set of rows, in order. */
  function Batch(rows: Rows, ids: set<Id>, limit: nat): seq<Id>
    requires ids <= rows.Keys
    decreases limit
  {
    if limit == 0 || ids == {} then []
    else
      var x := First(rows, ids);
      [x] + Batch(rows, ids - {x}, limit - 1)
  }

  /** Everything in `ids` that the batch leaves out comes after all of it, and only because the batch is full. */
  predicate LeftOut(rows: Rows, limit: nat, batch: seq<Id>, id: Id)
    requires id in rows && forall i :: 0 <= i < |batch| ==> batch[i] in rows
  {
    |batch| == limit && forall i :: 0 <= i < |batch| ==> Before(rows, batch[i], id)
  }

  /** What a batch promises: ordered members of `ids`, as many as allowed, and everything left out comes later. */
  ghost predicate IsBatch(rows: Rows, ids: set<Id>, limit: nat, batch: seq<Id>)
    requires ids <= rows.Keys
  {
    && (forall i :: 0 <= i < |batch| ==> batch[i] in ids)
    && (forall i, j :: 0 <= i < j < |batch| ==> Before(rows, batch[i], batch[j]))
    && |batch| <= limit
    && (forall id :: id in ids && id !in batch ==> LeftOut(rows, limit, batch, id))
  }

  lemma {:induction false} BatchIsBatch(rows: Rows, ids: set<Id>, limit: nat)
    requires ids <= rows.Keys
    ensures IsBatch(rows, ids, limit, Batch(rows, ids, limit))
    decreases limit
  {
    if limit > 0 && ids != {} {
      var x := First(rows, ids);
      var rest := Batch(rows, ids - {x}, limit - 1);
      BatchIsBatch(rows, ids - {x}, limit - 1);
      var batch := [x] + rest;
      forall i, j | 0 <= i < j < |batch| ensures Before(rows, batch[i], batch[j]) {
        assert batch[j] == rest[j - 1] && rest[j - 1] in ids - {x};
      }
      forall id | id in ids && id !in batch ensures LeftOut(rows, limit, batch, id) {
        assert id !in rest && id in ids - {x};
        assert LeftOut(rows, limit - 1, rest, id);
      }
    }
  }

  lemma EmptyBatch(rows: Rows, ids: set<Id>, limit: nat)
    requires ids <= rows.Keys && IsBatch(rows, ids, limit, [])
    ensures limit == 0 || ids == {}
  {
    if ids != {} {
      var x :| x in ids;
      assert LeftOut(rows, limit, [], x);
    }
  }

  lemma BatchHead(rows: Rows, ids: set<Id>, limit: nat, batch: seq<Id>) returns (x: Id, rest: seq<Id>)
    requires ids <= rows.Keys && IsBatch(rows, ids, limit, batch) && batch != []
    ensures limit > 0 && ids != {} && x == First(rows, ids) && batch == [x] + rest
    ensures IsBatch(rows, ids - {x}, limit - 1, rest)
  {
    assert batch[0] in ids;
    x, rest := First(rows, ids), batch[1..];
    BatchStartsFirst(rows, ids, limit, batch, x);
    BatchRest(rows, ids, limit, batch, x);
  }

  lemma BatchUnfolds(rows: Rows, ids: set<Id>, limit: nat, x: Id, rest: seq<Id>)
    requires ids <= rows.Keys && limit > 0 && ids != {} && x == First(rows, ids)
    requires rest == Batch(rows, ids - {x}, limit - 1)
    ensures Batch(rows, ids, limit) == [x] + rest
  {
  }

  /** The promise determines the batch: there is one right answer. */
  lemma {:induction false} BatchUnique(rows: Rows, ids: set<Id>, limit: nat, batch: seq<Id>)
    requires ids <= rows.Keys && IsBatch(rows, ids, limit, batch)
    ensures batch == Batch(rows, ids, limit)
    decreases limit
  {
    if batch == [] {
      EmptyBatch(rows, ids, limit);
    } else {
      var x, rest := BatchHead(rows, ids, limit, batch);
      BatchUnique(rows, ids - {x}, limit - 1, rest);
      BatchUnfolds(rows, ids, limit, x, rest);
    }
  }

  lemma BatchRest(rows: Rows, ids: set<Id>, limit: nat, batch: seq<Id>, x: Id)
    requires ids <= rows.Keys && IsBatch(rows, ids, limit, batch) && batch != [] && batch[0] == x
    requires forall i :: 1 <= i < |batch| ==> batch[i] in ids - {x}
    requires limit > 0
    ensures IsBatch(rows, ids - {x}, limit - 1, batch[1..])
  {
    var rest := batch[1..];
    assert forall i :: 0 <= i < |rest| ==> rest[i] == batch[i + 1];
    forall id | id in ids - {x} && id !in rest ensures LeftOut(rows, limit - 1, rest, id) {
      assert id !in batch;
      assert LeftOut(rows, limit, batch, id);
    }
  }

  lemma OthersComeLater(rows: Rows, ids: set<Id>, limit: nat, batch: seq<Id>, id: Id)
    requires ids <= rows.Keys && IsBatch(rows, ids, limit, batch) && id in ids
    ensures id in batch || forall i :: 0 <= i < |batch| ==> Before(rows, batch[i], id)
  {
    assert id in batch || LeftOut(rows, limit, batch, id);
  }

  lemma BatchStartsFirst(rows: Rows, ids: set<Id>, limit: nat, batch: seq<Id>, x: Id)
    requires ids <= rows.Keys && IsBatch(rows, ids, limit, batch) && IsFirst(rows, ids, x) && batch != []
    ensures batch[0] == x
    ensures forall i :: 1 <= i < |batch| ==> batch[i] in ids - {x}
  {
    assert batch[0] in ids;
    assert forall i :: 1 <= i < |batch| ==> Before(rows, batch[0], batch[i]);
    assert x in batch ==> exists i :: 0 <= i < |batch| && batch[i] == x;
    OthersComeLater(rows, ids, limit, batch, x);
  }

  // ----- the updates -----

  function PublishedRow(row: OutboxEvent, at: Time): OutboxEvent {
    row.(status := Published, publishedAt := Some(at))
  }

  /** CASE WHEN attempts + 1 >= maxAttempts. */
  function FailedRow(row: OutboxEvent, error: string, maxAttempts: nat, nextRetryAt: Time): OutboxEvent {
    if row.attempts + 1 >= maxAttempts
    then row.(attempts := row.attempts + 1, status := Exhausted, nextRetryAt := None, lastError := Some(error))
    else row.(attempts := row.attempts + 1, nextRetryAt := Some(nextRetryAt), lastError := Some(error))
  }

  function MarkPublished(rows: Rows, id: Id, at: Time): (Rows, Option<OutboxEvent>) {
    if id in rows && rows[id].status == Pending then
      (rows[id := PublishedRow(rows[id], at)], Some(PublishedRow(rows[id], at)))
    else (rows, None)
  }

  function MarkPublishFailed(rows: Rows, id: Id, error: string, maxAttempts: nat, nextRetryAt: Time)
    : (Rows, Option<OutboxEvent>)
  {
    if id in rows && rows[id].status == Pending then
      var row := FailedRow(rows[id], error, maxAttempts, nextRetryAt);
      (rows[id := row], Some(row))
    else (rows, None)
  }

  /** WHERE status = 'PENDING' AND (next_retry_at IS NULL OR next_retry_at <= now()). */
  predicate CanGoOut(row: OutboxEvent, now: Time) {
    row.status == Pending && (row.nextRetryAt.Some? ==> row.nextRetryAt.value <= now)
  }

  class OutboxEventsDataAccess {
    var rows: Rows

    constructor ()
      ensures rows == map[]
    {
      rows := map[];
    }

    /** Inserts a pending event; None stands for the primary key violation. */
    method InsertPending(id: Id, routingKey: EventType, payload: Envelope, createdAt: Time)
      returns (record: Option<OutboxEvent>)
      modifies this
      ensures record.Some? <==> id !in old(rows)
      ensures record.Some? ==>
        && rows == old(rows)[id := record.value]
        && IsNew(record.value, id, routingKey, payload, createdAt)
      ensures record.None? ==> rows == old(rows)
    {
      record := None;
      if id !in rows {
        rows := rows[id := NewEvent(id, routingKey, payload, createdAt)];
        record := Some(rows[id]);
      }
    }

    /** Locks an ordered batch of eligible pending events, skipping the rows other pollers hold. */
    method FetchPendingBatch(limit: nat, now: Time, locked: set<Id>) returns (batch: seq<Id>)
      ensures IsBatch(rows, Candidates(rows, locked, now), limit, batch)
      ensures batch == Batch(rows, Candidates(rows, locked, now), limit)
      ensures |batch| <= limit
      ensures forall i :: 0 <= i < |batch| ==> batch[i] in rows && batch[i] !in locked && CanGoOut(rows[batch[i]], now)
      ensures forall i, j :: 0 <= i < j < |batch| ==>
        && rows[batch[i]].createdAt <= rows[batch[j]].createdAt
        && (rows[batch[i]].createdAt == rows[batch[j]].createdAt ==> batch[i] < batch[j])
      ensures forall id :: id in rows && id !in locked && CanGoOut(rows[id], now) && id !in batch ==>
        && |batch| == limit
        && forall i :: 0 <= i < |batch| ==>
             && rows[batch[i]].createdAt <= rows[id].createdAt
             && (rows[batch[i]].createdAt == rows[id].createdAt ==> batch[i] < id)
    {
      batch := Batch(rows, Candidates(rows, locked, now), limit);
      BatchIsBatch(rows, Candidates(rows, locked, now), limit);
      assert forall id :: id in Candidates(rows, locked, now) && id !in batch ==> LeftOut(rows, limit, batch, id);
    }

    method MarkAsPublished(id: Id, at: Time) returns (record: Option<OutboxEvent>)
      modifies this
      ensures (rows, record) == MarkPublished(old(rows), id, at)
      ensures record.Some? <==> id in old(rows) && old(rows)[id].status == Pending
      ensures record.Some? ==>
        && rows == old(rows)[id := record.value]
        && record.value == old(rows)[id].(status := Published, publishedAt := Some(at))
      ensures record.None? ==> rows == old(rows)
    {
      record := None;
      if id in rows && rows[id].status == Pending {
        rows := rows[id := PublishedRow(rows[id], at)];
        record := Some(rows[id]);
      }
    }

    /** Records a publish failure and fences the terminal attempt in the same update. */
    method MarkAsFailed(id: Id, error: string, maxAttempts: nat, nextRetryAt: Time)
      returns (record: Option<OutboxEvent>)
      modifies this
      ensures (rows, record) == MarkPublishFailed(old(rows), id, error, maxAttempts, nextRetryAt)
      ensures record.Some? <==> id in old(rows) && old(rows)[id].status == Pending
      ensures record.Some? ==>
        && rows == old(rows)[id := record.value]
        && record.value == old(rows)[id].(
             attempts := old(rows)[id].attempts + 1, lastError := Some(error),
             status := if old(rows)[id].attempts + 1 >= maxAttempts then Exhausted else Pending,
             nextRetryAt := if old(rows)[id].attempts + 1 >= maxAttempts then None else Some(nextRetryAt))
      ensures record.None? ==> rows == old(rows)
    {
      record := None;
      if id in rows && rows[id].status == Pending {
        rows := rows[id := FailedRow(rows[id], error, maxAttempts, nextRetryAt)];
        record := Some(rows[id]);
      }
    }
  }

  // ----- one poll -----

  /** How one publish ended. */
  datatype PublishOutcome = Confirmed | Rejected(error: string) | NotAttempted(cause: string)

  /** What the world answers while one event is handled: the publish, two clocks, and whether the update itself fails. */
  datatype Answer = Answer(outcome: PublishOutcome, clock: Time, databaseNow: Time, updateFails: bool)

  /** The outcome function of one event. */
  function AfterAnswer(row: OutboxEvent, answer: Answer, config: Config): OutboxEvent {
    match answer.outcome
    case Confirmed => PublishedRow(row, answer.databaseNow)
    case Rejected(error) =>
      FailedRow(row, error, config.maxAttempts,
                answer.clock + DelayFor(config.retryBaseDelayMs, config.retryMaxDelayMs, row.attempts))
    case NotAttempted(_) => row
  }

  /** The wait after a failure: base * 2^attempts or the maximum, whichever is less, the exponent counted up to 52. */
  predicate IsBackoff(d: int, config: Config, attempts: nat) {
    var scaled := config.retryBaseDelayMs * Pow2(if attempts <= 52 then attempts else 52);
    d <= config.retryMaxDelayMs && d <= scaled && (d == config.retryMaxDelayMs || d == scaled)
  }

  /** What handling one event does to its row, column by column. */
  predicate HandledAs(row: OutboxEvent, row': OutboxEvent, answer: Answer, config: Config) {
    && row'.id == row.id && row'.createdAt == row.createdAt
    && row'.payload == row.payload && row'.routingKey == row.routingKey
    && match answer.outcome
       case Confirmed =>
         && row'.status == Published && row'.publishedAt == Some(answer.databaseNow)
         && row'.attempts == row.attempts && row'.nextRetryAt == row.nextRetryAt && row'.lastError == row.lastError
       case Rejected(error) =>
         && row'.attempts == row.attempts + 1 && row'.lastError == Some(error) && row'.publishedAt == row.publishedAt
         && if row.attempts + 1 >= config.maxAttempts then row'.status == Exhausted && row'.nextRetryAt.None?
            else
              && row'.status == Pending && row'.nextRetryAt.Some?
              && IsBackoff(row'.nextRetryAt.value - answer.clock, config, row.attempts)
       case NotAttempted(_) => row' == row
  }

  lemma DelayIsBackoff(config: Config, attempts: nat)
    ensures IsBackoff(DelayFor(config.retryBaseDelayMs, config.retryMaxDelayMs, attempts), config, attempts)
  {
  }

  /** There is one such wait, and it is positive and at most the maximum. */
  lemma BackoffIs(d: int, config: Config, attempts: nat)
    requires ValidConfig(config) && IsBackoff(d, config, attempts)
    ensures d == DelayFor(config.retryBaseDelayMs, config.retryMaxDelayMs, attempts)
    ensures 1 <= d <= config.retryMaxDelayMs
  {
    DelayBoundedMonotone(config.retryBaseDelayMs, config.retryMaxDelayMs, attempts, attempts);
  }

  lemma OutcomeHandles(row: OutboxEvent, answer: Answer, config: Config)
    requires row.status == Pending
    ensures HandledAs(row, AfterAnswer(row, answer, config), answer, config)
  {
    DelayIsBackoff(config, row.attempts);
  }

  /**
   A confirm publishes. A rejection counts one attempt and either ends the event or makes it wait out its backoff, by
   the process's time of the failure: it is eligible from that instant on, and not before.
   */
  lemma OutcomeMeans(row: OutboxEvent, answer: Answer, config: Config, d: int, at: Time)
    requires ValidConfig(config) && row.status == Pending && IsBackoff(d, config, row.attempts)
    ensures var row' := AfterAnswer(row, answer, config);
            && HandledAs(row, row', answer, config)
            && 1 <= d <= config.retryMaxDelayMs
            && (answer.outcome.Rejected? && row.attempts + 1 < config.maxAttempts ==>
                  (Eligible(row', at) <==> answer.clock + d <= at))
  {
    OutcomeHandles(row, answer, config);
    BackoffIs(d, config, row.attempts);
  }

  predicate Undisturbed(answer: Answer) {
    !answer.outcome.NotAttempted? && !answer.updateFails
  }

  function IndexOf(batch: seq<Id>, id: Id): (i: nat)
    requires id in batch
    ensures i < |batch| && batch[i] == id
  {
    if batch[0] == id then 0 else 1 + IndexOf(batch[1..], id)
  }

  /** The outcome function applied pointwise to a batch; every other row stays. */
  function PollResult(rows: Rows, batch: seq<Id>, answers: seq<Answer>, config: Config): Rows
    requires |batch| <= |answers|
  {
    map id | id in rows ::
      if id in batch then AfterAnswer(rows[id], answers[IndexOf(batch, id)], config) else rows[id]
  }

  lemma {:induction false} IndexOfDistinct(batch: seq<Id>, i: nat)
    requires i < |batch| && forall a, b :: 0 <= a < b < |batch| ==> batch[a] != batch[b]
    ensures IndexOf(batch, batch[i]) == i
  {
    if i > 0 {
      assert batch[1..][i - 1] == batch[i];
      IndexOfDistinct(batch[1..], i - 1);
    }
  }

  lemma BatchDistinct(rows: Rows, ids: set<Id>, limit: nat, batch: seq<Id>)
    requires ids <= rows.Keys && IsBatch(rows, ids, limit, batch)
    ensures forall a, b :: 0 <= a < b < |batch| ==> batch[a] != batch[b]
  {
    forall a, b | 0 <= a < b < |batch| ensures batch[a] != batch[b] {
      assert Before(rows, batch[a], batch[b]);
    }
  }

  /** Rows that agree with the outcome function position by position are the poll's result. */
  lemma PointwiseIsResult(before: Rows, batch: seq<Id>, answers: seq<Answer>, config: Config, after: Rows)
    requires |batch| <= |answers| && after.Keys == before.Keys
    requires forall i :: 0 <= i < |batch| ==> batch[i] in before
    requires forall a, b :: 0 <= a < b < |batch| ==> batch[a] != batch[b]
    requires forall i :: 0 <= i < |batch| ==> after[batch[i]] == AfterAnswer(before[batch[i]], answers[i], config)
    requires forall id :: id in before && id !in batch ==> after[id] == before[id]
    ensures after == PollResult(before, batch, answers, config)
  {
    forall id | id in before ensures after[id] == PollResult(before, batch, answers, config)[id] {
      if id in batch {
        IndexOfDistinct(batch, IndexOf(batch, id));
      }
    }
  }

  /** The poll's result handles every event of the batch and no other. */
  lemma ResultHandles(before: Rows, batch: seq<Id>, answers: seq<Answer>, config: Config)
    requires |batch| <= |answers|
    requires forall i :: 0 <= i < |batch| ==> batch[i] in before && before[batch[i]].status == Pending
    requires forall a, b :: 0 <= a < b < |batch| ==> batch[a] != batch[b]
    ensures var after := PollResult(before, batch, answers, config);
            && (forall i :: 0 <= i < |batch| ==> HandledAs(before[batch[i]], after[batch[i]], answers[i], config))
            && (forall id :: id in before && id !in batch ==> after[id] == before[id])
  {
    var after := PollResult(before, batch, answers, config);
    forall i | 0 <= i < |batch| ensures HandledAs(before[batch[i]], after[batch[i]], answers[i], config) {
      IndexOfDistinct(batch, i);
      OutcomeHandles(before[batch[i]], answers[i], config);
    }
  }

  class OutboxPublisherWorker {
    const config: Config
    const table: OutboxEventsDataAccess

    constructor (config: Config, table: OutboxEventsDataAccess)
      requires ValidConfig(config)
      ensures this.config == config && this.table == table
    {
      this.config := config;
      this.table := table;
    }

    /**
     Publishes one locked batch and records outcomes in its transaction. `answers` is what the world does, event by
     event; `committed` tells whether the whole transaction took effect.
     */
    method PollOnce(channelReady: bool, now: Time, locked: set<Id>, answers: seq<Answer>, commitSucceeds: bool)
      returns (committed: bool, batch: seq<Id>)
      requires config.batchSize <= |answers|
      modifies table
      ensures batch == if channelReady then Batch(old(table.rows), Candidates(old(table.rows), locked, now), config.batchSize)
                       else []
      ensures committed <==>
        channelReady && commitSucceeds && |batch| <= |answers| && forall i :: 0 <= i < |batch| ==> Undisturbed(answers[i])
      ensures committed ==> table.rows == PollResult(old(table.rows), batch, answers, config)
      ensures committed ==>
        && table.rows.Keys == old(table.rows).Keys
        && (forall i :: 0 <= i < |batch| ==>
              && batch[i] in old(table.rows)
              && HandledAs(old(table.rows)[batch[i]], table.rows[batch[i]], answers[i], config))
        && (forall id :: id in old(table.rows) && id !in batch ==> table.rows[id] == old(table.rows)[id])
      ensures !committed ==> table.rows == old(table.rows)
    {
      committed, batch := false, [];
      if !channelReady { return; }
      var before := table.rows;
      batch := table.FetchPendingBatch(config.batchSize, now, locked);
      BatchDistinct(before, Candidates(before, locked, now), config.batchSize, batch);
      committed := PublishBatch(batch, answers);
      ResultHandles(before, batch, answers, config);
      if !commitSucceeds { committed := false; }
      if !committed { table.rows := before; }
    }

    /** The loop of the transaction's handler: event by event, until the batch is done or an error escapes. */
    method PublishBatch(batch: seq<Id>, answers: seq<Answer>) returns (done: bool)
      requires |batch| <= |answers|
      requires forall i :: 0 <= i < |batch| ==> batch[i] in table.rows && table.rows[batch[i]].status == Pending
      requires forall a, b :: 0 <= a < b < |batch| ==> batch[a] != batch[b]
      modifies table
      ensures done <==> forall i :: 0 <= i < |batch| ==> Undisturbed(answers[i])
      ensures done ==> table.rows == PollResult(old(table.rows), batch, answers, config)
    {
      ghost var before := table.rows;
      for i := 0 to |batch|
        invariant table.rows.Keys == before.Keys
        invariant forall j :: 0 <= j < i ==> Undisturbed(answers[j])
        invariant forall j :: 0 <= j < i ==> table.rows[batch[j]] == AfterAnswer(before[batch[j]], answers[j], config)
        invariant forall j :: i <= j < |batch| ==> table.rows[batch[j]] == before[batch[j]]
        invariant forall id :: id in before && id !in batch ==> table.rows[id] == before[id]
      {
        var handled := PublishEvent(batch[i], answers[i]);
        if !handled { return false; }
      }
      PointwiseIsResult(before, batch, answers, config, table.rows);
      return true;
    }

    /** Publishes one event and records its outcome; false when the error leaves the transaction. */
    method PublishEvent(id: Id, answer: Answer) returns (handled: bool)
      requires id in table.rows && table.rows[id].status == Pending
      modifies table
      ensures handled <==> Undisturbed(answer)
      ensures handled ==> table.rows == old(table.rows)[id := AfterAnswer(old(table.rows)[id], answer, config)]
      ensures handled ==> HandledAs(old(table.rows)[id], table.rows[id], answer, config)
      ensures !handled ==> table.rows == old(table.rows)
    {
      if answer.outcome.NotAttempted? || answer.updateFails { return false; }
      if answer.outcome.Rejected? {
        DelayIsBackoff(config, table.rows[id].attempts);
        var delayMs := DelayFor(config.retryBaseDelayMs, config.retryMaxDelayMs, table.rows[id].attempts);
        var _ := table.MarkAsFailed(id, answer.outcome.error, config.maxAttempts, answer.clock + delayMs);
      } else {
        var _ := table.MarkAsPublished(id, answer.databaseNow);
      }
      return true;
    }
  }
}
