/**
 `IdempotencyService` as the source writes it: look up, insert, look up again, decide. One rival's insert may land
 between the first lookup and the insert; module Protocol interleaves everything.
 */
module IdempotencyService {
  import opened Options
  import opened Payments
  import opened IdempotencyRecords
  import opened Acquisition

  /** Only `markCompleted` makes a row COMPLETED, and it stores the response; module Protocol keeps this in every run. */
  predicate ResponsesStored(rows: Records) {
    forall k :: k in rows && rows[k].status == Completed ==> rows[k].response.Some?
  }

  /** `isProcessingExpired` gates the takeover by the process clock; the update itself goes by the database clock. */
  function TakeoverInstant(r: Record, appNow: Time, databaseNow: Time): Time {
    if r.processingExpiresAt <= appNow then databaseNow else r.processingExpiresAt
  }

  /** The rows after a rival's insert, which does nothing to a key that is taken. */
  function AfterRival(rows: Records, k: RecordKey, rival: Option<Record>): Records {
    if rival.Some? && k !in rows then rows[k := rival.value] else rows
  }

  function InstantFor(rows: Records, k: RecordKey, appNow: Time, databaseNow: Time): Time {
    if k in rows then TakeoverInstant(rows[k], appNow, databaseNow) else databaseNow
  }

  class Service {
    const data: IdempotencyDataAccess

    constructor (data: IdempotencyDataAccess)
      ensures this.data == data
    {
      this.data := data;
    }

    /** Returns a replayable result or acquires ownership: what an atomic acquire does. None is STATE_NOT_FOUND. */
    method GetExistingOrStart(k: RecordKey, request: Request, resourceId: Id, rival: Option<Record>,
                              appNow: Time, databaseNow: Time, expiresAt: Time, token: Id)
      returns (decision: Option<Decision>)
      requires ResponsesStored(AfterRival(data.rows, k, rival))
      modifies data
      ensures decision.Some?
      ensures k !in old(data.rows) && rival.None? ==>
        && decision == Some(Start(Record(request, Processing, resourceId, token, expiresAt, None)))
        && data.rows == old(data.rows)[k := decision.value.record]
      ensures var rows := AfterRival(old(data.rows), k, rival);
              (data.rows, decision.value)
                == AtomicAcquire(rows, k, request, InstantFor(rows, k, appNow, databaseNow), resourceId, expiresAt, token)
    {
      var existing := data.FindByScopeAndKey(k);
      if existing.Some? {
        var decided := DecideFromExisting(k, request, appNow, databaseNow, expiresAt, token);
        return Some(decided);
      }
      data.rows := AfterRival(data.rows, k, rival);
      var started := data.InsertProcessing(k, request, resourceId, expiresAt, token);
      if started.Some? { return Some(Start(started.value)); }
      decision := None;
      var raced := data.FindByScopeAndKey(k);
      if raced.Some? {
        var decided := DecideFromExisting(k, request, appNow, databaseNow, expiresAt, token);
        decision := Some(decided);
      }
    }

    method DecideFromExisting(k: RecordKey, request: Request, appNow: Time, databaseNow: Time, expiresAt: Time, token: Id)
      returns (decision: Decision)
      requires k in data.rows && ResponsesStored(data.rows)
      modifies data
      ensures forall resourceId: Id ::
        (data.rows, decision)
          == AtomicAcquire(old(data.rows), k, request, TakeoverInstant(old(data.rows[k]), appNow, databaseNow),
                           resourceId, expiresAt, token)
      ensures old(data.rows[k]).requestHash != request <==> decision == DifferentRequest
      ensures old(data.rows[k]).requestHash == request ==>
        var r := old(data.rows[k]);
        match r.status
        case Completed => Some(decision) == (if r.response.Some? then Some(Replay(r.response.value)) else None)
        case Unsuccessful => decision == Start(data.rows[k])
        case Processing =>
          && (appNow < r.processingExpiresAt ==> decision == Busy)
          && (r.processingExpiresAt <= appNow ==>
                decision == if r.processingExpiresAt < databaseNow then Start(data.rows[k]) else Busy)
      ensures decision.Start? ==>
        && data.rows == old(data.rows)[k := decision.record]
        && decision.record == old(data.rows[k]).(status := Processing, processingExpiresAt := expiresAt,
                                                processingToken := token)
      ensures !decision.Start? ==> data.rows == old(data.rows)
    {
      var r := data.rows[k];
      if r.requestHash != request { return DifferentRequest; }
      match r.status
      case Completed =>
        decision := Replay(r.response.value);
      case Unsuccessful =>
        var reactivated := data.Reactivate(k, request, expiresAt, token);
        decision := if reactivated.Some? then Start(reactivated.value) else Busy;
      case Processing =>
        decision := Busy;
        if r.processingExpiresAt <= appNow {
          var taken := data.Takeover(k, request, databaseNow, expiresAt, token);
          decision := if taken.Some? then Start(taken.value) else Busy;
        }
    }

    /** False stands for OWNERSHIP_LOST: the row is no longer PROCESSING under this token, and stays as it is. */
    method MarkAsCompleted(k: RecordKey, token: Id, resourceId: Id, response: Response) returns (ok: bool)
      modifies data
      ensures ok <==> OwnedBy(old(data.rows), k, token)
      ensures data.rows == MarkCompleted(old(data.rows), k, token, resourceId, response).0
      ensures !ok ==> data.rows == old(data.rows)
    {
      var completed := data.Complete(k, token, resourceId, response);
      ok := completed.Some?;
    }

    method MarkAsFailed(k: RecordKey, token: Id) returns (ok: bool)
      modifies data
      ensures ok <==> OwnedBy(old(data.rows), k, token)
      ensures data.rows == MarkFailed(old(data.rows), k, token).0
      ensures !ok ==> data.rows == old(data.rows)
    {
      var failed := data.Fail(k, token);
      ok := failed.Some?;
    }
  }
}
