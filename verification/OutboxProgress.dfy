/** How long delivery can take: a measure every committed poll lowers. Module DeliveryProgress sums it up over runs. */
module OutboxProgress {
  import opened Payments
  import opened Outbox

  /** PENDING means attempts are left, and FAILED means exactly all were used. */
  predicate WithinAttempts(row: OutboxEvent, maxAttempts: nat) {
    && (row.status == Pending ==> row.attempts < maxAttempts)
    && (row.status == Exhausted ==> row.attempts == maxAttempts)
    && (row.status == Published ==> row.attempts < maxAttempts)
  }

  predicate Bounded(rows: Rows, maxAttempts: nat) {
    Keyed(rows) && forall id :: id in rows ==> WithinAttempts(rows[id], maxAttempts)
  }

  /** The attempts an event still has. */
  function Remaining(row: OutboxEvent, maxAttempts: nat): nat {
    if row.status == Pending && row.attempts < maxAttempts then maxAttempts - row.attempts else 0
  }

  ghost function Sum(rows: Rows, ids: set<Id>, maxAttempts: nat): nat
    requires ids <= rows.Keys
  {
    if ids == {} then 0
    else
      var x :| x in ids;
      Remaining(rows[x], maxAttempts) + Sum(rows, ids - {x}, maxAttempts)
  }

  lemma {:induction false} SumWithout(rows: Rows, ids: set<Id>, maxAttempts: nat, y: Id)
    requires ids <= rows.Keys && y in ids
    ensures Sum(rows, ids, maxAttempts) == Remaining(rows[y], maxAttempts) + Sum(rows, ids - {y}, maxAttempts)
    decreases |ids|
  {
    var x :| x in ids && Sum(rows, ids, maxAttempts) == Remaining(rows[x], maxAttempts) + Sum(rows, ids - {x}, maxAttempts);
    if x != y {
      SumWithout(rows, ids - {x}, maxAttempts, y);
      SumWithout(rows, ids - {y}, maxAttempts, x);
      assert ids - {x} - {y} == ids - {y} - {x};
    }
  }

  function Members(batch: seq<Id>): set<Id> {
    set i | 0 <= i < |batch| :: batch[i]
  }

  lemma {:induction false} MembersCount(batch: seq<Id>)
    requires forall a, b :: 0 <= a < b < |batch| ==> batch[a] != batch[b]
    ensures |Members(batch)| == |batch|
  {
    if batch == [] {
      assert Members(batch) == {};
    } else {
      var n := |batch| - 1;
      MembersCount(batch[..n]);
      assert Members(batch) == Members(batch[..n]) + {batch[n]};
    }
  }

  /** A published or failed row has fewer attempts left, keeps its place in the order and stays within bounds. */
  lemma AnsweredRow(row: OutboxEvent, answer: Answer, config: Config)
    requires row.status == Pending && WithinAttempts(row, config.maxAttempts) && Undisturbed(answer)
    ensures var row' := AfterAnswer(row, answer, config);
            && WithinAttempts(row', config.maxAttempts)
            && Remaining(row', config.maxAttempts) + 1 <= Remaining(row, config.maxAttempts)
            && row'.id == row.id && row'.createdAt == row.createdAt
            && row'.routingKey == row.routingKey && row'.payload == row.payload
            && row'.attempts == row.attempts + (if answer.outcome.Rejected? then 1 else 0)
  {
  }

  /** On any set of events, a committed poll lowers the attempts left by at least the batch's share of that set. */
  lemma {:induction false} SumDrops(rows: Rows, rows': Rows, ids: set<Id>, b: set<Id>, maxAttempts: nat)
    requires ids <= rows.Keys && rows'.Keys == rows.Keys
    requires forall id :: id in rows ==>
      Remaining(rows'[id], maxAttempts) + (if id in b then 1 else 0) <= Remaining(rows[id], maxAttempts)
    ensures Sum(rows', ids, maxAttempts) + |ids * b| <= Sum(rows, ids, maxAttempts)
    decreases |ids|
  {
    if ids == {} {
      assert ids * b == {};
    } else {
      var x :| x in ids;
      SumWithout(rows, ids, maxAttempts, x);
      SumWithout(rows', ids, maxAttempts, x);
      SumDrops(rows, rows', ids - {x}, b, maxAttempts);
      assert ids * b == (ids - {x}) * b + ({x} * b);
      assert x in b ==> {x} * b == {x};
      assert x !in b ==> {x} * b == {};
    }
  }

  /** The measure is spent exactly when every event is terminal. */
  lemma SpentIffTerminal(rows: Rows, maxAttempts: nat)
    requires Bounded(rows, maxAttempts)
    ensures Sum(rows, rows.Keys, maxAttempts) == 0 <==> forall id :: id in rows ==> rows[id].status != Pending
  {
    if Sum(rows, rows.Keys, maxAttempts) == 0 {
      forall id | id in rows ensures rows[id].status != Pending { SumWithout(rows, rows.Keys, maxAttempts, id); }
    } else if forall id :: id in rows ==> rows[id].status != Pending {
      NothingLeft(rows, rows.Keys, maxAttempts);
    }
  }

  lemma {:induction false} NothingLeft(rows: Rows, ids: set<Id>, maxAttempts: nat)
    requires ids <= rows.Keys && forall id :: id in ids ==> rows[id].status != Pending
    ensures Sum(rows, ids, maxAttempts) == 0
    decreases |ids|
  {
    if ids != {} {
      var x :| x in ids;
      SumWithout(rows, ids, maxAttempts, x);
      NothingLeft(rows, ids - {x}, maxAttempts);
    }
  }

  // ----- for totals over runs -----

  /** The events before `e` in (created_at, id) order. */
  function Ahead(rows: Rows, e: Id): set<Id>
    requires e in rows
  {
    set id | id in rows && Before(rows, id, e)
  }

  lemma {:induction false} SumSame(rows: Rows, rows': Rows, ids: set<Id>, maxAttempts: nat)
    requires ids <= rows.Keys && ids <= rows'.Keys
    requires forall id :: id in ids ==> rows'[id] == rows[id]
    ensures Sum(rows', ids, maxAttempts) == Sum(rows, ids, maxAttempts)
    decreases |ids|
  {
    if ids != {} {
      var x :| x in ids;
      SumWithout(rows, ids, maxAttempts, x);
      SumWithout(rows', ids, maxAttempts, x);
      SumSame(rows, rows', ids - {x}, maxAttempts);
    }
  }

  lemma PassingCosts(a: nat, more: bool, b: nat)
    ensures (a + (if more then 1 else 0)) * b == a * b + (if more then b else 0)
  {
  }
}
