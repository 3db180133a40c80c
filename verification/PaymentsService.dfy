/**
 The owner's part of `create` and `capture` as the source writes it: provider call, transaction, catch block. What
 others and the database do meanwhile comes in as a `World`; module Protocol interleaves everything.
 */
module PaymentsService {
  import opened Options
  import opened Payments
  import opened IdempotencyRecords
  import P = Protocol

  /** How the database ends the transaction: committed, failed, or committed with its acknowledgement lost. */
  datatype Fate = Commits | Fails | CommitsUnheard

  datatype World = World(
    rival: Option<Id>,      // the token of a takeover while the attempt is under way
    fate: Fate,
    closes: bool,           // the catch block's markFailed reaches the database
    at: Time,
    createdAt: Time,
    eventId: Id,
    recordedAt: Time)

  /** The records after the takeover, if there is one. */
  function Overtaken(records: Records, k: RecordKey, rival: Option<Id>): Records
    requires k in records
  {
    if rival.Some? then records[k := records[k].(processingToken := rival.value)] else records
  }

  /** Nothing of the attempt is durable; its record is FAILED if `markFailed` reached the database. */
  predicate GivenUp(records: Records, records': Records, k: RecordKey, closes: bool)
    requires k in records
  {
    records' == if closes then records[k := records[k].(status := Unsuccessful)] else records
  }

  predicate CompletedWith(records: Records, records': Records, k: RecordKey, resourceId: Id, response: Response)
    requires k in records
  {
    records' == records[k := records[k].(status := Completed, response := Some(response), resourceId := resourceId)]
  }

  /** What stands between a locked row and the provider call, the provider's presence aside. */
  predicate Capturable(row: Payment) {
    row.status == Authorized && NonEmpty(row.providerPaymentId)
  }

  /** The event says for whom, when and about which row it was recorded. */
  predicate RecordedFor(e: Envelope, w: World, correlationId: string, row: Payment) {
    && e.eventId == w.eventId && e.occurredAt == w.recordedAt && e.correlationId == correlationId
    && AgreesWithRow(e, row) && AnnouncedStatus(e) == row.status && TypedAs(e)
  }

  lemma RecordEventMeans(operation: Operation, w: World, correlationId: string, row: Payment)
    requires OperationStatus(operation, row.status) && Filled(row)
    ensures var recorded := RecordEvent(operation, w.eventId, correlationId, row, w.recordedAt);
            && (recorded.Success? <==> WellShaped(row))
            && (recorded.Success? ==> RecordedFor(recorded.value, w, correlationId, row))
  {
    if RecordEvent(operation, w.eventId, correlationId, row, w.recordedAt).Success? {
      RecordedEventDescribesRow(operation, w.eventId, correlationId, row, w.recordedAt);
    }
  }

  lemma CaptureMeans(row: Payment, result: CaptureResult, w: World, correlationId: string)
    requires Capturable(row)
    ensures var row' := CapturedRow(row, result, w.at);
            var recorded := RecordEvent(CAPTURE, w.eventId, correlationId, row', w.recordedAt);
            && SameIdentity(row, row') && CapturedAs(row', result, w.at) && Shows(ToDto(row'), row')
            && (recorded.Success? <==> CaptureRecordable(result))
            && (recorded.Success? ==> RecordedFor(recorded.value, w, correlationId, row') && CaptureStage(recorded.value))
  {
    var row' := CapturedRow(row, result, w.at);
    if RecordEvent(CAPTURE, w.eventId, correlationId, row', w.recordedAt).Success? {
      RecordedEventDescribesRow(CAPTURE, w.eventId, correlationId, row', w.recordedAt);
    }
    DtoShows(CapturedRow(row, result, w.at));
  }

  class Service {
    const payments: PaymentsDataAccess
    const idempotency: IdempotencyDataAccess
    var events: map<Id, Envelope>

    constructor (payments: PaymentsDataAccess, idempotency: IdempotencyDataAccess)
      ensures this.payments == payments && this.idempotency == idempotency && events == map[]
    {
      this.payments, this.idempotency, events := payments, idempotency, map[];
    }

    /** The three writes a commit makes durable at once. */
    twostate predicate Durable(row: Payment, event: Envelope, k: RecordKey, response: Response)
      reads this, payments, idempotency
    {
      && payments.rows == old(payments.rows)[row.id := row]
      && events == old(events)[event.eventId := event]
      && k in old(idempotency.rows)
      && CompletedWith(old(idempotency.rows), idempotency.rows, k, row.id, response)
    }

    /** Neither payment nor event. */
    twostate predicate Untouched()
      reads this, payments
    {
      payments.rows == old(payments.rows) && events == old(events)
    }

    /**
     `create` once STARTED. `answer` is None when the provider throws. All three tables change together or none does;
     an overtaken call writes nothing and is told so; a commit whose acknowledgement was lost is not undone.
     */
    method CreateOwned(cmd: P.Command, k: RecordKey, token: Id, paymentId: Id, answer: Option<AuthorizeResult>, w: World)
      returns (outcome: P.Outcome)
      requires cmd.CreateCommand? && OwnedBy(idempotency.rows, k, token)
      requires (w.rival.Some? ==> w.rival.value != token) && w.eventId !in events
      modifies this, payments, idempotency
      ensures outcome.Ok? ==>
        && w.rival.None? && w.fate == Commits && answer.Some? && paymentId !in old(payments.rows)
        && var row := AuthorizationRow(paymentId, cmd.merchantId, cmd.amountMinor, cmd.currency, answer.value, w.at, w.createdAt);
           var recorded := RecordEvent(AUTHORIZE, w.eventId, cmd.correlationId, row, w.recordedAt);
           && WellShaped(row) && recorded.Success? && outcome.response == Response(201, ToDto(row))
           && AnnouncesAuthorize(recorded.value, answer.value, w.at)
           && Durable(row, recorded.value, k, outcome.response)
      ensures outcome.Ok? ==>
        && paymentId in payments.rows && w.eventId in events
        && var row := payments.rows[paymentId];
           && row.id == paymentId && row.merchantId == cmd.merchantId && row.amountMinor == cmd.amountMinor
           && row.currency == cmd.currency && row.createdAt == w.createdAt && AuthorizedAs(row, answer.value, w.at)
           && outcome.response.statusCode == 201 && Shows(outcome.response.body, row)
           && RecordedFor(events[w.eventId], w, cmd.correlationId, row) && AuthorizeStage(events[w.eventId])
      ensures (&& w.rival.None? && w.fate == Commits && answer.Some? && paymentId !in old(payments.rows)
               && AuthorizeRecordable(answer.value)) ==> outcome.Ok?
      ensures w.rival.Some? ==>
        && Untouched() && idempotency.rows == Overtaken(old(idempotency.rows), k, w.rival)
        && outcome.Err? && (w.closes ==> outcome.error == P.OwnershipLost)
      ensures outcome.Err? && w.rival.None? && w.fate != CommitsUnheard ==>
        Untouched() && GivenUp(old(idempotency.rows), idempotency.rows, k, w.closes) && outcome.error != P.OwnershipLost
      ensures outcome.Err? && w.rival.None? && w.fate == CommitsUnheard ==>
        || (Untouched() && GivenUp(old(idempotency.rows), idempotency.rows, k, w.closes))
        || (k in idempotency.rows && idempotency.rows[k].status == Completed && (w.closes ==> outcome.error == P.OwnershipLost))
    {
      idempotency.rows := Overtaken(idempotency.rows, k, w.rival);
      if answer.None? {
        outcome := CatchBlock(k, token, P.ProviderThrew, w.closes);
        return;
      }
      var row := AuthorizationRow(paymentId, cmd.merchantId, cmd.amountMinor, cmd.currency, answer.value, w.at, w.createdAt);
      AuthorizationRowMeans(paymentId, cmd.merchantId, cmd.amountMinor, cmd.currency, answer.value, w.at, w.createdAt);
      RecordEventMeans(AUTHORIZE, w, cmd.correlationId, row);
      DtoShows(row);
      var result := CreateTransaction(cmd, k, token, row, w);
      if result.Success? { return P.Ok(result.value); }
      outcome := CatchBlock(k, token, result.error, w.closes);
    }

    /** Payment, outbox, and idempotency completion in one transaction; every error rolls all of it back. */
    method CreateTransaction(cmd: P.Command, k: RecordKey, token: Id, row: Payment, w: World)
      returns (result: Result<Response, P.Error>)
      requires cmd.CreateCommand? && k in idempotency.rows && w.eventId !in events
      requires OperationStatus(AUTHORIZE, row.status) && Filled(row)
      modifies this, payments, idempotency
      ensures result.Success? ==> w.fate == Commits && OwnedBy(old(idempotency.rows), k, token)
      ensures (&& row.id !in old(payments.rows) && WellShaped(row) && OwnedBy(old(idempotency.rows), k, token)
               && w.fate == Commits) ==> result.Success?
      ensures result.Success? || (result.Failure? && w.fate == CommitsUnheard && !Untouched()) ==>
        && row.id !in old(payments.rows) && OwnedBy(old(idempotency.rows), k, token) && WellShaped(row)
        && var recorded := RecordEvent(AUTHORIZE, w.eventId, cmd.correlationId, row, w.recordedAt);
           recorded.Success? && Durable(row, recorded.value, k, Response(201, ToDto(row)))
      ensures result.Success? ==> result.value == Response(201, ToDto(row))
      ensures result.Failure? && (w.fate != CommitsUnheard || Untouched()) ==>
        Untouched() && idempotency.rows == old(idempotency.rows)
      ensures result == Failure(P.UniqueViolation) <==> row.id in old(payments.rows)
      ensures (result.Failure? && result.error.EventRejected?) <==> row.id !in old(payments.rows) && !WellShaped(row)
      ensures result == Failure(P.OwnershipLost) <==>
        row.id !in old(payments.rows) && WellShaped(row) && !OwnedBy(old(idempotency.rows), k, token)
      ensures result == Failure(P.DatabaseError) <==>
        && row.id !in old(payments.rows) && WellShaped(row) && OwnedBy(old(idempotency.rows), k, token)
        && w.fate != Commits
    {
      RecordEventMeans(AUTHORIZE, w, cmd.correlationId, row);
      var paymentsBefore, eventsBefore, recordsBefore := payments.rows, events, idempotency.rows;
      var inserted := payments.Insert(row);
      if inserted.None? { return Failure(P.UniqueViolation); }
      var recorded := RecordEvent(AUTHORIZE, w.eventId, cmd.correlationId, row, w.recordedAt);
      if recorded.Failure? {
        payments.rows := paymentsBefore;
        return Failure(P.EventRejected(recorded.error));
      }
      events := events[w.eventId := recorded.value];
      var completed := idempotency.Complete(k, token, row.id, Response(201, ToDto(row)));
      if completed.None? || w.fate == Fails {
        payments.rows, events, idempotency.rows := paymentsBefore, eventsBefore, recordsBefore;
        return Failure(if completed.None? then P.OwnershipLost else P.DatabaseError);
      }
      result := if w.fate == Commits then Success(Response(201, ToDto(row))) else Failure(P.DatabaseError);
    }

    /**
     `capture` once STARTED: the provider is called inside the transaction, on a locked row. The same promises hold,
     and the answer is Ok only for a payment that was AUTHORIZED.
     */
    method CaptureOwned(cmd: P.Command, k: RecordKey, token: Id, configured: bool, answer: Option<CaptureResult>, w: World)
      returns (outcome: P.Outcome)
      requires cmd.CaptureCommand? && OwnedBy(idempotency.rows, k, token)
      requires forall p :: p in payments.rows ==> payments.rows[p].id == p
      requires (w.rival.Some? ==> w.rival.value != token) && w.eventId !in events
      modifies this, payments, idempotency
      ensures outcome.Ok? ==>
        && w.rival.None? && w.fate == Commits && configured && answer.Some?
        && cmd.paymentId in old(payments.rows) && Capturable(old(payments.rows)[cmd.paymentId])
        && var row := CapturedRow(old(payments.rows)[cmd.paymentId], answer.value, w.at);
           var recorded := RecordEvent(CAPTURE, w.eventId, cmd.correlationId, row, w.recordedAt);
           && recorded.Success? && outcome.response == Response(200, ToDto(row))
           && AnnouncesCapture(recorded.value, old(payments.rows)[cmd.paymentId].providerPaymentId, answer.value, w.at)
           && Durable(row, recorded.value, k, outcome.response)
      ensures outcome.Ok? ==>
        && w.eventId in events && cmd.paymentId in payments.rows
        && var row := payments.rows[cmd.paymentId];
           && SameIdentity(old(payments.rows)[cmd.paymentId], row) && CapturedAs(row, answer.value, w.at)
           && outcome.response.statusCode == 200 && Shows(outcome.response.body, row)
           && RecordedFor(events[w.eventId], w, cmd.correlationId, row) && CaptureStage(events[w.eventId])
      ensures (&& w.rival.None? && w.fate == Commits && configured && answer.Some?
               && cmd.paymentId in old(payments.rows) && Capturable(old(payments.rows)[cmd.paymentId])
               && CaptureRecordable(answer.value)) ==> outcome.Ok?
      ensures w.rival.Some? ==>
        && Untouched() && idempotency.rows == Overtaken(old(idempotency.rows), k, w.rival)
        && outcome.Err? && (w.closes ==> outcome.error == P.OwnershipLost)
      ensures outcome.Err? && w.rival.None? && w.fate != CommitsUnheard ==>
        Untouched() && GivenUp(old(idempotency.rows), idempotency.rows, k, w.closes) && outcome.error != P.OwnershipLost
      ensures outcome.Err? && w.rival.None? && w.fate == CommitsUnheard ==>
        || (Untouched() && GivenUp(old(idempotency.rows), idempotency.rows, k, w.closes))
        || (k in idempotency.rows && idempotency.rows[k].status == Completed && (w.closes ==> outcome.error == P.OwnershipLost))
    {
      idempotency.rows := Overtaken(idempotency.rows, k, w.rival);
      if answer.Some? && cmd.paymentId in payments.rows && Capturable(payments.rows[cmd.paymentId]) {
        CaptureMeans(payments.rows[cmd.paymentId], answer.value, w, cmd.correlationId);
      }
      var result := CaptureTransaction(cmd, k, token, configured, answer, w);
      if result.Success? { return P.Ok(result.value); }
      outcome := CatchBlock(k, token, result.error, w.closes);
    }

    method CaptureTransaction(cmd: P.Command, k: RecordKey, token: Id, configured: bool, answer: Option<CaptureResult>,
                              w: World)
      returns (result: Result<Response, P.Error>)
      requires cmd.CaptureCommand? && k in idempotency.rows && w.eventId !in events
      requires forall p :: p in payments.rows ==> payments.rows[p].id == p
      modifies this, payments, idempotency
      ensures result.Success? ==> w.fate == Commits && OwnedBy(old(idempotency.rows), k, token)
      ensures result.Success? || (result.Failure? && w.fate == CommitsUnheard && !Untouched()) ==>
        && configured && answer.Some? && OwnedBy(old(idempotency.rows), k, token)
        && cmd.paymentId in old(payments.rows) && Capturable(old(payments.rows)[cmd.paymentId])
        && var row := CapturedRow(old(payments.rows)[cmd.paymentId], answer.value, w.at);
           var recorded := RecordEvent(CAPTURE, w.eventId, cmd.correlationId, row, w.recordedAt);
           && recorded.Success? && Durable(row, recorded.value, k, Response(200, ToDto(row)))
           && (result.Success? ==> result.value == Response(200, ToDto(row)))
      ensures (&& configured && answer.Some? && OwnedBy(old(idempotency.rows), k, token) && w.fate == Commits
               && cmd.paymentId in old(payments.rows) && Capturable(old(payments.rows)[cmd.paymentId])
               && CaptureRecordable(answer.value)) ==> result.Success?
      ensures result.Failure? && (w.fate != CommitsUnheard || Untouched()) ==>
        Untouched() && idempotency.rows == old(idempotency.rows)
      ensures result == Failure(P.PaymentNotFound) <==> cmd.paymentId !in old(payments.rows)
      ensures cmd.paymentId in old(payments.rows) ==>
        var row := old(payments.rows)[cmd.paymentId];
        && (result == Failure(P.PaymentNotCapturable) <==> row.status != Authorized)
        && (result == Failure(P.ProviderNotConfigured) <==> row.status == Authorized && !configured)
        && (result == Failure(P.ProviderReferenceMissing) <==>
              row.status == Authorized && configured && !NonEmpty(row.providerPaymentId))
        && (result == Failure(P.ProviderThrew) <==> Capturable(row) && configured && answer.None?)
        && var answered := Capturable(row) && configured && answer.Some?;
           && (result.Failure? && result.error.EventRejected? <==> answered && !CaptureRecordable(answer.value))
           && (result == Failure(P.OwnershipLost) <==>
                 answered && CaptureRecordable(answer.value) && !OwnedBy(old(idempotency.rows), k, token))
           && (result == Failure(P.DatabaseError) <==>
                 && answered && CaptureRecordable(answer.value) && OwnedBy(old(idempotency.rows), k, token)
                 && w.fate != Commits)
    {
      if answer.Some? && cmd.paymentId in payments.rows && Capturable(payments.rows[cmd.paymentId]) {
        CaptureMeans(payments.rows[cmd.paymentId], answer.value, w, cmd.correlationId);
      }
      var paymentsBefore, eventsBefore, recordsBefore := payments.rows, events, idempotency.rows;
      var payment := payments.FindById(cmd.paymentId);
      if payment.None? { return Failure(P.PaymentNotFound); }
      if payment.value.status != Authorized { return Failure(P.PaymentNotCapturable); }
      if !configured { return Failure(P.ProviderNotConfigured); }
      if !NonEmpty(payment.value.providerPaymentId) { return Failure(P.ProviderReferenceMissing); }
      if answer.None? { return Failure(P.ProviderThrew); }
      var updated := payments.UpdateStatusIfAuthorized(cmd.paymentId, answer.value, w.at);
      var row := updated.value;
      var recorded := RecordEvent(CAPTURE, w.eventId, cmd.correlationId, row, w.recordedAt);
      if recorded.Failure? {
        payments.rows := paymentsBefore;
        return Failure(P.EventRejected(recorded.error));
      }
      events := events[w.eventId := recorded.value];
      var completed := idempotency.Complete(k, token, row.id, Response(200, ToDto(row)));
      if completed.None? || w.fate == Fails {
        payments.rows, events, idempotency.rows := paymentsBefore, eventsBefore, recordsBefore;
        return Failure(if completed.None? then P.OwnershipLost else P.DatabaseError);
      }
      result := if w.fate == Commits then Success(Response(200, ToDto(row))) else Failure(P.DatabaseError);
    }

    /** `markFailed`, then the error it lets through. */
    method CatchBlock(k: RecordKey, token: Id, cause: P.Error, closes: bool) returns (outcome: P.Outcome)
      modifies idempotency
      ensures outcome.Err?
      ensures outcome.error == if closes && !OwnedBy(old(idempotency.rows), k, token) then P.OwnershipLost else cause
      ensures idempotency.rows == if closes then MarkFailed(old(idempotency.rows), k, token).0 else old(idempotency.rows)
    {
      outcome := P.Err(cause);
      if closes {
        var failed := idempotency.Fail(k, token);
        if failed.None? { outcome := P.Err(P.OwnershipLost); }
      }
    }
  }
}
