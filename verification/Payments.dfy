/**
 Payment rows, the transition table, the response body and the outbox envelopes
 recorded for them (payment-state-service.ts, payments-data-access.ts,
 outbox-service.ts and the row-building parts of payments-service.ts).
 */
module Payments {
  import opened Options

  type Id = nat
  type Time = int

  const AMOUNT_MINOR_MAX := 1_000_000_000_000

  datatype Currency = TRY | USD | EUR

  datatype Status = Created | Authorized | Failed | Captured | CaptureFailed

  datatype Payment = Payment(
    id: Id,
    merchantId: Id,
    amountMinor: int,
    currency: Currency,
    status: Status,
    provider: string,
    providerPaymentId: Option<string>,
    failureCode: Option<string>,
    failureMessage: Option<string>,
    authorizedAt: Option<Time>,
    capturedAt: Option<Time>,
    failedAt: Option<Time>,
    createdAt: Time)

  type Table = map<Id, Payment>

  /** What a provider may answer to `authorize`; any strings, any outcome. */
  datatype AuthorizeResult =
    | AuthorizeSuccess(provider: string, providerPaymentId: string)
    | AuthorizeDecline(provider: string, reference: Option<string>, failureCode: string, failureMessage: string)

  /** What a provider may answer to `capture`. */
  datatype CaptureResult =
    | CaptureSuccess
    | CaptureDecline(failureCode: string, failureMessage: string)

  // ----- state service -----

  function AllowedTransitions(current: Status): set<Status> {
    match current
    case Created => {Authorized, Failed}
    case Authorized => {Captured, CaptureFailed}
    case Failed => {}
    case Captured => {}
    case CaptureFailed => {}
  }

  predicate CanTransition(current: Status, target: Status) {
    target in AllowedTransitions(current)
  }

  // ----- rows -----

  /** The row `create` inserts for a provider answer. */
  function AuthorizationRow(id: Id, merchantId: Id, amountMinor: int, currency: Currency,
                            result: AuthorizeResult, at: Time, createdAt: Time): Payment {
    match result
    case AuthorizeSuccess(provider, reference) =>
      Payment(id, merchantId, amountMinor, currency, Authorized, provider, Some(reference),
              None, None, Some(at), None, None, createdAt)
    case AuthorizeDecline(provider, reference, code, message) =>
      Payment(id, merchantId, amountMinor, currency, Failed, provider, reference,
              Some(code), Some(message), None, None, Some(at), createdAt)
  }

  function CaptureStatus(result: CaptureResult): Status {
    if result.CaptureSuccess? then Captured else CaptureFailed
  }

  /** The row after the columns `updateStatusIfAuthorized` sets. */
  function CapturedRow(row: Payment, result: CaptureResult, at: Time): Payment {
    match result
    case CaptureSuccess =>
      row.(status := Captured, capturedAt := Some(at), failedAt := None,
           failureCode := None, failureMessage := None)
    case CaptureDecline(code, message) =>
      row.(status := CaptureFailed, capturedAt := None, failedAt := Some(at),
           failureCode := Some(code), failureMessage := Some(message))
  }

  /** The conditional update: it matches only a row whose status is AUTHORIZED. */
  function UpdateIfAuthorized(rows: Table, id: Id, result: CaptureResult, at: Time): (Table, Option<Payment>) {
    if id in rows && rows[id].status == Authorized then
      var updated := CapturedRow(rows[id], result, at);
      (rows[id := updated], Some(updated))
    else
      (rows, None)
  }

  /** Insert under the primary key: a taken id is a unique violation. */
  function InsertRow(rows: Table, row: Payment): (Table, Option<Payment>) {
    if row.id in rows then (rows, None) else (rows[row.id := row], Some(row))
  }

  /** The columns no statement of the service ever changes. */
  predicate SameIdentity(a: Payment, b: Payment) {
    && a.id == b.id
    && a.merchantId == b.merchantId
    && a.amountMinor == b.amountMinor
    && a.currency == b.currency
    && a.provider == b.provider
    && a.providerPaymentId == b.providerPaymentId
    && a.authorizedAt == b.authorizedAt
    && a.createdAt == b.createdAt
  }

  /** Timestamps, failure fields and provider reference agree with the status. */
  predicate WellShaped(row: Payment) {
    match row.status
    case Created => false
    case Authorized =>
      && NonEmpty(row.providerPaymentId)
      && row.authorizedAt.Some? && row.capturedAt.None? && row.failedAt.None?
      && row.failureCode.None? && row.failureMessage.None?
    case Failed =>
      && row.authorizedAt.None? && row.capturedAt.None? && row.failedAt.Some?
      && NonEmpty(row.failureCode) && NonEmpty(row.failureMessage)
    case Captured =>
      && NonEmpty(row.providerPaymentId)
      && row.authorizedAt.Some? && row.capturedAt.Some? && row.failedAt.None?
      && row.failureCode.None? && row.failureMessage.None?
    case CaptureFailed =>
      && NonEmpty(row.providerPaymentId)
      && row.authorizedAt.Some? && row.capturedAt.None? && row.failedAt.Some?
      && NonEmpty(row.failureCode) && NonEmpty(row.failureMessage)
  }

  /** WellShaped without the checks on string contents that recording the event performs. */
  predicate Filled(row: Payment) {
    match row.status
    case Created => false
    case Authorized =>
      && row.providerPaymentId.Some?
      && row.authorizedAt.Some? && row.capturedAt.None? && row.failedAt.None?
      && row.failureCode.None? && row.failureMessage.None?
    case Failed =>
      && row.authorizedAt.None? && row.capturedAt.None? && row.failedAt.Some?
      && row.failureCode.Some? && row.failureMessage.Some?
    case Captured =>
      && NonEmpty(row.providerPaymentId)
      && row.authorizedAt.Some? && row.capturedAt.Some? && row.failedAt.None?
      && row.failureCode.None? && row.failureMessage.None?
    case CaptureFailed =>
      && NonEmpty(row.providerPaymentId)
      && row.authorizedAt.Some? && row.capturedAt.None? && row.failedAt.Some?
      && row.failureCode.Some? && row.failureMessage.Some?
  }

  // ----- response body -----

  datatype PaymentDto = PaymentDto(
    id: Id,
    merchantId: Id,
    amountMinor: int,
    currency: Currency,
    status: Status,
    provider: string,
    providerPaymentId: Option<string>,
    failureCode: Option<string>,
    failureMessage: Option<string>,
    capturedAt: Option<Time>,
    createdAt: Time)

  function ToDto(row: Payment): PaymentDto {
    PaymentDto(row.id, row.merchantId, row.amountMinor, row.currency, row.status, row.provider,
               row.providerPaymentId, row.failureCode, row.failureMessage, row.capturedAt, row.createdAt)
  }

  /** The body shows the row, field by field. */
  predicate Shows(body: PaymentDto, row: Payment) {
    && body.id == row.id && body.merchantId == row.merchantId
    && body.amountMinor == row.amountMinor && body.currency == row.currency
    && body.status == row.status
    && body.provider == row.provider && body.providerPaymentId == row.providerPaymentId
    && body.failureCode == row.failureCode && body.failureMessage == row.failureMessage
    && body.capturedAt == row.capturedAt && body.createdAt == row.createdAt
  }

  lemma DtoShows(row: Payment)
    ensures Shows(ToDto(row), row)
  {
  }

  // ----- what a provider's answer makes of a payment -----

  /** The row holds the provider's answer to `authorize`, given at `at`. */
  predicate AuthorizedAs(row: Payment, result: AuthorizeResult, at: Time) {
    && row.provider == result.provider && row.capturedAt.None?
    && match result
       case AuthorizeSuccess(_, reference) =>
         && row.status == Authorized && row.providerPaymentId == Some(reference)
         && row.authorizedAt == Some(at) && row.failedAt.None? && row.failureCode.None? && row.failureMessage.None?
       case AuthorizeDecline(_, reference, code, message) =>
         && row.status == Failed && row.providerPaymentId == reference
         && row.authorizedAt.None? && row.failedAt == Some(at)
         && row.failureCode == Some(code) && row.failureMessage == Some(message)
  }

  /** The row holds the provider's answer to `capture`, given at `at`. */
  predicate CapturedAs(row: Payment, result: CaptureResult, at: Time) {
    match result
    case CaptureSuccess =>
      && row.status == Captured && row.capturedAt == Some(at) && row.failedAt.None?
      && row.failureCode.None? && row.failureMessage.None?
    case CaptureDecline(code, message) =>
      && row.status == CaptureFailed && row.capturedAt.None? && row.failedAt == Some(at)
      && row.failureCode == Some(code) && row.failureMessage == Some(message)
  }

  /** The answer has every text that the event recorded for it requires. */
  predicate AuthorizeRecordable(result: AuthorizeResult) {
    match result
    case AuthorizeSuccess(_, reference) => reference != ""
    case AuthorizeDecline(_, _, code, message) => code != "" && message != ""
  }

  predicate CaptureRecordable(result: CaptureResult) {
    match result
    case CaptureSuccess => true
    case CaptureDecline(code, message) => code != "" && message != ""
  }

  lemma AuthorizationRowMeans(id: Id, merchantId: Id, amountMinor: int, currency: Currency, result: AuthorizeResult,
                              at: Time, createdAt: Time)
    ensures var row := AuthorizationRow(id, merchantId, amountMinor, currency, result, at, createdAt);
            && row.id == id && row.merchantId == merchantId && row.amountMinor == amountMinor && row.currency == currency
            && row.createdAt == createdAt && AuthorizedAs(row, result, at)
            && (WellShaped(row) <==> AuthorizeRecordable(result))
  {
  }

  lemma CapturedRowMeans(row: Payment, result: CaptureResult, at: Time)
    requires row.status == Authorized && WellShaped(row)
    ensures var row' := CapturedRow(row, result, at);
            && SameIdentity(row, row') && CapturedAs(row', result, at)
            && (WellShaped(row') <==> CaptureRecordable(result))
  {
  }

  // ----- outbox envelopes -----

  datatype EventType = PaymentAuthorizedV1 | PaymentCapturedV1 | PaymentFailedV1

  datatype Operation = AUTHORIZE | CAPTURE

  datatype Payload =
    | AuthorizedPayload(paymentId: Id, merchantId: Id, amountMinor: int, currency: Currency, provider: string,
                        reference: string, authorizedAt: Time)
    | CapturedPayload(paymentId: Id, merchantId: Id, amountMinor: int, currency: Currency, provider: string,
                      reference: string, capturedAt: Time)
    | FailedPayload(paymentId: Id, merchantId: Id, amountMinor: int, currency: Currency, provider: string,
                    optionalReference: Option<string>, operation: Operation, status: Status,
                    failureCode: string, failureMessage: string, failedAt: Time)

  datatype Envelope = Envelope(
    eventId: Id,
    eventType: EventType,
    eventVersion: nat,
    correlationId: string,
    occurredAt: Time,
    aggregateId: Id,
    payload: Payload)

  /** Why recording an event throws: a field that must be a non-empty string, or an invalid date. */
  datatype RecordError = MissingField(name: string) | InvalidTimestamp

  /** `recordPaymentAuthorized`: fields are checked in the order the payload is built. */
  function RecordPaymentAuthorized(eventId: Id, correlationId: string, row: Payment, at: Time)
    : Result<Envelope, RecordError>
  {
    if !NonEmpty(row.providerPaymentId) then Failure(MissingField("providerPaymentId"))
    else if row.authorizedAt.None? then Failure(InvalidTimestamp)
    else
      Success(Envelope(eventId, PaymentAuthorizedV1, 1, correlationId, at, row.id,
                       AuthorizedPayload(row.id, row.merchantId, row.amountMinor, row.currency, row.provider,
                                         row.providerPaymentId.value, row.authorizedAt.value)))
  }

  function RecordPaymentCaptured(eventId: Id, correlationId: string, row: Payment, at: Time)
    : Result<Envelope, RecordError>
  {
    if !NonEmpty(row.providerPaymentId) then Failure(MissingField("providerPaymentId"))
    else if row.capturedAt.None? then Failure(InvalidTimestamp)
    else
      Success(Envelope(eventId, PaymentCapturedV1, 1, correlationId, at, row.id,
                       CapturedPayload(row.id, row.merchantId, row.amountMinor, row.currency, row.provider,
                                       row.providerPaymentId.value, row.capturedAt.value)))
  }

  function RecordPaymentFailed(eventId: Id, correlationId: string, operation: Operation, row: Payment, at: Time)
    : Result<Envelope, RecordError>
  {
    if !NonEmpty(row.failureCode) then Failure(MissingField("failureCode"))
    else if !NonEmpty(row.failureMessage) then Failure(MissingField("failureMessage"))
    else if row.failedAt.None? then Failure(InvalidTimestamp)
    else
      Success(Envelope(eventId, PaymentFailedV1, 1, correlationId, at, row.id,
                       FailedPayload(row.id, row.merchantId, row.amountMinor, row.currency, row.provider,
                                     row.providerPaymentId, operation,
                                     if operation == AUTHORIZE then Failed else CaptureFailed,
                                     row.failureCode.value, row.failureMessage.value, row.failedAt.value)))
  }

  /** The event `create` (AUTHORIZE) or `capture` (CAPTURE) records for the row it has just written. */
  function RecordEvent(operation: Operation, eventId: Id, correlationId: string, row: Payment, at: Time)
    : Result<Envelope, RecordError>
  {
    match operation
    case AUTHORIZE =>
      if row.status == Authorized then RecordPaymentAuthorized(eventId, correlationId, row, at)
      else RecordPaymentFailed(eventId, correlationId, AUTHORIZE, row, at)
    case CAPTURE =>
      if row.status == Captured then RecordPaymentCaptured(eventId, correlationId, row, at)
      else RecordPaymentFailed(eventId, correlationId, CAPTURE, row, at)
  }

  /** An event of the authorize stage: the outcome of `create`. */
  predicate AuthorizeStage(e: Envelope) {
    || e.payload.AuthorizedPayload?
    || (e.payload.FailedPayload? && e.payload.operation == AUTHORIZE)
  }

  /** An event of the capture stage: the outcome of `capture`. */
  predicate CaptureStage(e: Envelope) {
    || e.payload.CapturedPayload?
    || (e.payload.FailedPayload? && e.payload.operation == CAPTURE)
  }

  /** The type, which is also the routing key, is that of the payload. */
  predicate TypedAs(e: Envelope) {
    match e.payload
    case AuthorizedPayload(_, _, _, _, _, _, _) => e.eventType == PaymentAuthorizedV1
    case CapturedPayload(_, _, _, _, _, _, _) => e.eventType == PaymentCapturedV1
    case FailedPayload(_, _, _, _, _, _, _, _, _, _, _) => e.eventType == PaymentFailedV1
  }

  /** The status an event announces. */
  function AnnouncedStatus(e: Envelope): Status {
    match e.payload
    case AuthorizedPayload(_, _, _, _, _, _, _) => Authorized
    case CapturedPayload(_, _, _, _, _, _, _) => Captured
    case FailedPayload(_, _, _, _, _, _, _, status, _, _, _) => status
  }

  /** The envelope says about the payment what the row says. */
  predicate AgreesWithRow(e: Envelope, row: Payment) {
    && e.aggregateId == row.id
    && e.payload.paymentId == row.id
    && e.payload.merchantId == row.merchantId
    && e.payload.amountMinor == row.amountMinor
    && e.payload.currency == row.currency
    && e.payload.provider == row.provider
    && match e.payload
       case AuthorizedPayload(_, _, _, _, _, reference, at) =>
         row.providerPaymentId == Some(reference) && row.authorizedAt == Some(at)
       case CapturedPayload(_, _, _, _, _, reference, at) =>
         row.providerPaymentId == Some(reference) && row.capturedAt == Some(at)
       case FailedPayload(_, _, _, _, _, reference, _, _, code, message, at) =>
         && row.providerPaymentId == reference && row.failureCode == Some(code)
         && row.failureMessage == Some(message) && row.failedAt == Some(at)
  }

  predicate ValidAmount(amountMinor: int) {
    1 <= amountMinor <= AMOUNT_MINOR_MAX
  }

  predicate VisibleAscii(c: char) {
    '!' <= c <= '~'
  }

  /** The shape the correlation middleware lets through. */
  predicate ValidCorrelationId(s: string) {
    1 <= |s| <= 128 && forall i :: 0 <= i < |s| ==> VisibleAscii(s[i])
  }

  /**
   The JSON Schemas of docs/contracts/events, one per event type: type, version, identity,
   amount range, non-empty strings, and the status each failed operation must carry.
   */
  predicate MeetsContract(e: Envelope) {
    && e.eventVersion == 1
    && ValidCorrelationId(e.correlationId)
    && ValidAmount(e.payload.amountMinor)
    && e.payload.provider != ""
    && match e.payload
       case AuthorizedPayload(_, _, _, _, _, reference, _) =>
         e.eventType == PaymentAuthorizedV1 && reference != ""
       case CapturedPayload(_, _, _, _, _, reference, _) =>
         e.eventType == PaymentCapturedV1 && reference != ""
       case FailedPayload(_, _, _, _, _, reference, operation, status, code, message, _) =>
         && e.eventType == PaymentFailedV1
         && (reference.None? || reference.value != "")
         && code != "" && message != ""
         && (operation == AUTHORIZE ==> status == Failed)
         && (operation == CAPTURE ==> status == CaptureFailed)
  }

  // ----- what the functions above mean for each other -----

  predicate OperationStatus(operation: Operation, status: Status) {
    match operation
    case AUTHORIZE => status == Authorized || status == Failed
    case CAPTURE => status == Captured || status == CaptureFailed
  }

  /**
   A recorded event announces the row's status, at the operation's stage, with the row's fields, for the request it
   was recorded for and at the instant it was.
   */
  lemma RecordedEventDescribesRow(operation: Operation, eventId: Id, correlationId: string, row: Payment, at: Time)
    requires OperationStatus(operation, row.status)
    requires RecordEvent(operation, eventId, correlationId, row, at).Success?
    ensures var e := RecordEvent(operation, eventId, correlationId, row, at).value;
            && e.eventId == eventId && e.correlationId == correlationId && e.occurredAt == at
            && e.eventVersion == 1 && TypedAs(e)
            && AgreesWithRow(e, row)
            && AnnouncedStatus(e) == row.status
            && (AuthorizeStage(e) <==> operation == AUTHORIZE)
            && (CaptureStage(e) <==> operation == CAPTURE)
  {
  }

  /** The first text the event for this row would need and does not have. */
  predicate Lacks(row: Payment, reason: RecordError) {
    match reason
    case InvalidTimestamp => false
    case MissingField(name) =>
      if row.status == Authorized || row.status == Captured
      then name == "providerPaymentId" && !NonEmpty(row.providerPaymentId)
      else if !NonEmpty(row.failureCode) then name == "failureCode"
      else name == "failureMessage" && !NonEmpty(row.failureMessage)
  }

  /** Recording throws exactly for that. */
  lemma RejectedIff(operation: Operation, eventId: Id, correlationId: string, row: Payment, at: Time, reason: RecordError)
    requires OperationStatus(operation, row.status) && Filled(row)
    ensures RecordEvent(operation, eventId, correlationId, row, at) == Failure(reason) <==> Lacks(row, reason)
  {
  }

  /** The envelope tells consumers what the provider answered to `authorize`. */
  predicate AnnouncesAuthorize(e: Envelope, result: AuthorizeResult, at: Time) {
    && e.payload.provider == result.provider
    && match result
       case AuthorizeSuccess(_, reference) =>
         e.payload.AuthorizedPayload? && e.payload.reference == reference && e.payload.authorizedAt == at
       case AuthorizeDecline(_, reference, code, message) =>
         && e.payload.FailedPayload? && e.payload.optionalReference == reference
         && e.payload.failureCode == code && e.payload.failureMessage == message && e.payload.failedAt == at
  }

  /** The envelope tells consumers what the provider answered to `capture`. */
  predicate AnnouncesCapture(e: Envelope, reference: Option<string>, result: CaptureResult, at: Time) {
    match result
    case CaptureSuccess =>
      e.payload.CapturedPayload? && reference == Some(e.payload.reference) && e.payload.capturedAt == at
    case CaptureDecline(code, message) =>
      && e.payload.FailedPayload? && e.payload.optionalReference == reference
      && e.payload.failureCode == code && e.payload.failureMessage == message && e.payload.failedAt == at
  }

  /** The response body tells the caller what the envelope tells its consumers. */
  predicate Tells(body: PaymentDto, e: Envelope) {
    && body.id == e.aggregateId && body.status == AnnouncedStatus(e)
    && body.merchantId == e.payload.merchantId && body.amountMinor == e.payload.amountMinor
    && body.currency == e.payload.currency && body.provider == e.payload.provider
    && (e.payload.FailedPayload? ==>
          && body.failureCode == Some(e.payload.failureCode) && body.failureMessage == Some(e.payload.failureMessage)
          && body.providerPaymentId == e.payload.optionalReference)
    && (!e.payload.FailedPayload? ==>
          && body.failureCode.None? && body.failureMessage.None?
          && body.providerPaymentId == Some(e.payload.reference))
    && body.capturedAt == (if e.payload.CapturedPayload? then Some(e.payload.capturedAt) else None)
  }

  lemma ResponseAgreesWithEvent(operation: Operation, eventId: Id, correlationId: string, row: Payment, at: Time)
    requires OperationStatus(operation, row.status) && WellShaped(row)
    requires RecordEvent(operation, eventId, correlationId, row, at).Success?
    ensures Tells(ToDto(row), RecordEvent(operation, eventId, correlationId, row, at).value)
  {
  }

  /**
   The published contract asks for two things the service itself never checks: a provider name that is not
   empty and, on a decline that carries one, a provider reference that is not empty. For a valid command these
   two are exactly what separates a recorded envelope from one that breaks its schema.
   */
  lemma RecordedEventMeetsContractIff(operation: Operation, eventId: Id, correlationId: string, row: Payment, at: Time)
    requires OperationStatus(operation, row.status)
    requires RecordEvent(operation, eventId, correlationId, row, at).Success?
    requires ValidAmount(row.amountMinor) && ValidCorrelationId(correlationId)
    ensures MeetsContract(RecordEvent(operation, eventId, correlationId, row, at).value)
       <==> row.provider != "" && (row.providerPaymentId.None? || row.providerPaymentId.value != "")
  {
  }

  // ----- the payments table as the data access changes it -----

  class PaymentsDataAccess {
    var rows: Table

    constructor ()
      ensures rows == map[]
    {
      rows := map[];
    }

    /** Inserts a row; None stands for the unique violation the database raises. */
    method Insert(row: Payment) returns (payment: Option<Payment>)
      modifies this
      ensures (rows, payment) == InsertRow(old(rows), row)
      ensures payment.Some? <==> row.id !in old(rows)
      ensures forall id :: id in old(rows) ==> id in rows && rows[id] == old(rows)[id]
    {
      if row.id in rows {
        payment := None;
      } else {
        rows := rows[row.id := row];
        payment := Some(row);
      }
    }

    method FindById(id: Id) returns (payment: Option<Payment>)
      ensures payment.Some? <==> id in rows
      ensures payment.Some? ==> payment.value == rows[id]
    {
      payment := if id in rows then Some(rows[id]) else None;
    }

    /** Updates a payment only while its current status is AUTHORIZED. */
    method UpdateStatusIfAuthorized(id: Id, result: CaptureResult, at: Time) returns (payment: Option<Payment>)
      modifies this
      ensures (rows, payment) == UpdateIfAuthorized(old(rows), id, result, at)
      ensures payment.Some? <==> id in old(rows) && old(rows)[id].status == Authorized
      ensures payment.Some? ==> CanTransition(Authorized, payment.value.status) && SameIdentity(old(rows)[id], payment.value)
      ensures forall other :: other in old(rows) && other != id ==> other in rows && rows[other] == old(rows)[other]
    {
      payment := None;
      if id in rows && rows[id].status == Authorized {
        var updated := CapturedRow(rows[id], result, at);
        rows := rows[id := updated];
        payment := Some(updated);
      }
    }
  }
}
