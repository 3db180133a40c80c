/**
 Idempotency rows and the conditional writes on them (idempotency-data-access.ts).
 A row is addressed by its unique (scope, key) pair, which its surrogate id stands for one to one:
 rows are never deleted and neither column is ever written again.
 */
module IdempotencyRecords {
  import opened Options
  import opened Payments

  datatype Scope = CreateScope(merchantId: Id) | CaptureScope(paymentId: Id)

  datatype RecordKey = RecordKey(scope: Scope, idempotencyKey: string)

  /** The hashed request; module Canonical shows that equal hashes mean equal requests. */
  datatype Request =
    | CreateRequest(merchantId: Id, amountMinor: int, currency: Currency)
    | CaptureRequest(paymentId: Id)

  datatype RecordStatus = Processing | Completed | Unsuccessful

  datatype Response = Response(statusCode: int, body: PaymentDto)

  datatype Record = Record(
    requestHash: Request,
    status: RecordStatus,
    resourceId: Id,
    processingToken: Id,
    processingExpiresAt: Time,
    response: Option<Response>)

  type Records = map<RecordKey, Record>

  /** INSERT ... ON CONFLICT (scope, idempotency_key) DO NOTHING RETURNING. */
  function TryInsertProcessing(rows: Records, k: RecordKey, hash: Request, resourceId: Id,
                               expiresAt: Time, token: Id): (Records, Option<Record>) {
    if k in rows then (rows, None)
    else
      var row := Record(hash, Processing, resourceId, token, expiresAt, None);
      (rows[k := row], Some(row))
  }

  /** UPDATE ... WHERE id, request_hash, status = FAILED. */
  function ReactivateFailed(rows: Records, k: RecordKey, hash: Request, expiresAt: Time, token: Id)
    : (Records, Option<Record>)
  {
    if k in rows && rows[k].requestHash == hash && rows[k].status == Unsuccessful then
      var row := rows[k].(status := Processing, processingExpiresAt := expiresAt, processingToken := token);
      (rows[k := row], Some(row))
    else (rows, None)
  }

  /** UPDATE ... WHERE id, request_hash, status = PROCESSING AND processing_expires_at < now(). */
  function TakeoverExpiredProcessing(rows: Records, k: RecordKey, hash: Request, now: Time,
                                     expiresAt: Time, token: Id): (Records, Option<Record>) {
    if k in rows && rows[k].requestHash == hash && rows[k].status == Processing && rows[k].processingExpiresAt < now then
      var row := rows[k].(processingExpiresAt := expiresAt, processingToken := token);
      (rows[k := row], Some(row))
    else (rows, None)
  }

  /** The WHERE clause of both closing updates: still PROCESSING under the caller's token. */
  predicate OwnedBy(rows: Records, k: RecordKey, token: Id) {
    k in rows && rows[k].status == Processing && rows[k].processingToken == token
  }

  function MarkCompleted(rows: Records, k: RecordKey, token: Id, resourceId: Id, response: Response)
    : (Records, Option<Record>)
  {
    if OwnedBy(rows, k, token) then
      var row := rows[k].(status := Completed, response := Some(response), resourceId := resourceId);
      (rows[k := row], Some(row))
    else (rows, None)
  }

  function MarkFailed(rows: Records, k: RecordKey, token: Id): (Records, Option<Record>) {
    if OwnedBy(rows, k, token) then
      var row := rows[k].(status := Unsuccessful);
      (rows[k := row], Some(row))
    else (rows, None)
  }

  class IdempotencyDataAccess {
    var rows: Records

    constructor ()
      ensures rows == map[]
    {
      rows := map[];
    }

    method FindByScopeAndKey(k: RecordKey) returns (record: Option<Record>)
      ensures record.Some? <==> k in rows
      ensures record.Some? ==> record.value == rows[k]
    {
      record := if k in rows then Some(rows[k]) else None;
    }

    method InsertProcessing(k: RecordKey, hash: Request, resourceId: Id, expiresAt: Time, token: Id)
      returns (record: Option<Record>)
      modifies this
      ensures (rows, record) == TryInsertProcessing(old(rows), k, hash, resourceId, expiresAt, token)
      ensures record.Some? <==> k !in old(rows)
      ensures record.Some? ==>
        && rows == old(rows)[k := record.value]
        && record.value == Record(hash, Processing, resourceId, token, expiresAt, None)
      ensures record.None? ==> rows == old(rows)
    {
      record := None;
      if k !in rows {
        var row := Record(hash, Processing, resourceId, token, expiresAt, None);
        rows := rows[k := row];
        record := Some(row);
      }
    }

    method Reactivate(k: RecordKey, hash: Request, expiresAt: Time, token: Id) returns (record: Option<Record>)
      modifies this
      ensures (rows, record) == ReactivateFailed(old(rows), k, hash, expiresAt, token)
      ensures record.Some? <==> k in old(rows) && old(rows)[k].requestHash == hash && old(rows)[k].status == Unsuccessful
      ensures record.Some? ==>
        && rows == old(rows)[k := record.value]
        && record.value == old(rows)[k].(status := Processing, processingExpiresAt := expiresAt, processingToken := token)
      ensures record.None? ==> rows == old(rows)
    {
      record := None;
      if k in rows && rows[k].requestHash == hash && rows[k].status == Unsuccessful {
        var row := rows[k].(status := Processing, processingExpiresAt := expiresAt, processingToken := token);
        rows := rows[k := row];
        record := Some(row);
      }
    }

    method Takeover(k: RecordKey, hash: Request, now: Time, expiresAt: Time, token: Id)
      returns (record: Option<Record>)
      modifies this
      ensures (rows, record) == TakeoverExpiredProcessing(old(rows), k, hash, now, expiresAt, token)
      ensures record.Some? <==>
        && k in old(rows) && old(rows)[k].requestHash == hash && old(rows)[k].status == Processing
        && old(rows)[k].processingExpiresAt < now
      ensures record.Some? ==>
        && rows == old(rows)[k := record.value]
        && record.value == old(rows)[k].(processingExpiresAt := expiresAt, processingToken := token)
      ensures record.None? ==> rows == old(rows)
    {
      record := None;
      if k in rows && rows[k].requestHash == hash && rows[k].status == Processing {
        if rows[k].processingExpiresAt < now {
          var row := rows[k].(processingExpiresAt := expiresAt, processingToken := token);
          rows := rows[k := row];
          record := Some(row);
        }
      }
    }

    method Complete(k: RecordKey, token: Id, resourceId: Id, response: Response) returns (record: Option<Record>)
      modifies this
      ensures (rows, record) == MarkCompleted(old(rows), k, token, resourceId, response)
      ensures record.Some? <==>
        k in old(rows) && old(rows)[k].status == Processing && old(rows)[k].processingToken == token
      ensures record.Some? ==>
        && rows == old(rows)[k := record.value]
        && record.value == old(rows)[k].(status := Completed, response := Some(response), resourceId := resourceId)
      ensures record.None? ==> rows == old(rows)
    {
      record := None;
      if k in rows && rows[k].status == Processing && rows[k].processingToken == token {
        var row := rows[k].(status := Completed, response := Some(response), resourceId := resourceId);
        rows := rows[k := row];
        record := Some(row);
      }
    }

    method Fail(k: RecordKey, token: Id) returns (record: Option<Record>)
      modifies this
      ensures (rows, record) == MarkFailed(old(rows), k, token)
      ensures record.Some? <==>
        k in old(rows) && old(rows)[k].status == Processing && old(rows)[k].processingToken == token
      ensures record.Some? ==>
        && rows == old(rows)[k := record.value]
        && record.value == old(rows)[k].(status := Unsuccessful)
      ensures record.None? ==> rows == old(rows)
    {
      record := None;
      if k in rows && rows[k].status == Processing && rows[k].processingToken == token {
        var row := rows[k].(status := Unsuccessful);
        rows := rows[k := row];
        record := Some(row);
      }
    }
  }
}
