/**
 * The exception-to-response mapper (`GlobalExceptionHandler.java`): six
 * handlers, one per kind of failure, and the classification that sends a
 * failure to exactly one of them.
 *
 * Spring chooses the handler whose declared exception type is closest to
 * the thrown one; the closed `Failure` type below makes that choice a
 * `match`. The id `ApiError.of`/`validation` would draw and the clock
 * reading are parameters (a caller draws the id from an `IdSource`).
 */
module GlobalExceptionHandler {
  import opened Wrappers
  import opened ErrorCodes
  import opened ValidationErrorDetails
  import opened ApiErrors
  import opened JavaText
  import opened Exceptions
  import HttpStatus

  /** What reached the handler, one variant per handler. */
  datatype Failure =
      /** `MethodArgumentNotValidException`: the binding result's field errors. */
    | MethodArgumentNotValid(fieldErrors: seq<FieldError>)
      /** `jakarta.validation.ConstraintViolationException`: its violations, in one iteration order of the set. */
    | ConstraintViolations(violations: seq<ConstraintViolation>)
      /** `NotFoundException`, `ChangeSetPersister.NotFoundException` or `EntityNotFoundException`. */
    | ResourceNotFound(message: Option<string>)
      /** `IllegalArgumentException`. */
    | IllegalArgument(message: Option<string>)
      /** `DataIntegrityViolationException` or `org.hibernate.exception.ConstraintViolationException`. */
    | DataIntegrity(message: Option<string>)
      /** Any other `Exception`. */
    | Unclassified(message: Option<string>)

  /** `ResponseEntity<ApiError>`: the response status and the body. */
  datatype ResponseEntity = ResponseEntity(status: int, body: ApiError)

  const BodyInvalidMessage: string := "La solicitud tiene datos inválidos."
  const ParamsInvalidMessage: string := "Parámetros inválidos."
  const NotFoundFallback: string := "Recurso no encontrado."
  const BadRequestFallback: string := "Solicitud inválida."
  const ConflictMessage: string := "Conflicto con el estado actual del recurso"
  const InternalMessage: string := "Algo salió mal. Intenta más tarde."

  /** `(m != null && !m.isBlank()) ? m : fallback`. */
  function EchoOr(m: Option<string>, fallback: string): (r: string)
    ensures HasText(m) ==> r == m.value
    ensures !HasText(m) ==> r == fallback
  {
    if m.Some? && !IsBlank(m.value) then m.value else fallback
  }

  /** `handleMethodArgumentNotValid`: 400, VALIDATION_ERROR, one detail per field error in order. */
  function HandleMethodArgumentNotValid(fieldErrors: seq<FieldError>, requestUri: string, errorId: Uuid, now: Instant)
    : (r: ResponseEntity)
    ensures r.status == HttpStatus.BadRequest && r.body.status == r.status
    ensures r.body.code == ValidationError && r.body.message == BodyInvalidMessage
    ensures |r.body.details| == |fieldErrors|
    ensures forall i :: 0 <= i < |fieldErrors| ==>
              r.body.details[i].field == fieldErrors[i].field && r.body.details[i].message == fieldErrors[i].defaultMessage
    ensures r.body.path == requestUri && r.body.errorId == errorId && r.body.timestamp == now
  {
    var details := FromFieldErrors(fieldErrors);
    ResponseEntity(HttpStatus.BadRequest,
      Validation(HttpStatus.BadRequest, ValidationError, BodyInvalidMessage, requestUri, Some(details), errorId, now))
  }

  /** `handleConstraintViolation`: 400, VALIDATION_ERROR, one detail per violation in order. */
  function HandleConstraintViolation(violations: seq<ConstraintViolation>, requestUri: string, errorId: Uuid, now: Instant)
    : (r: ResponseEntity)
    ensures r.status == HttpStatus.BadRequest && r.body.status == r.status
    ensures r.body.code == ValidationError && r.body.message == ParamsInvalidMessage
    ensures |r.body.details| == |violations|
    ensures forall i :: 0 <= i < |violations| ==>
              r.body.details[i].field == violations[i].propertyPath && r.body.details[i].message == Some(violations[i].message)
    ensures r.body.path == requestUri && r.body.errorId == errorId && r.body.timestamp == now
  {
    var details := FromConstraintViolations(violations);
    ResponseEntity(HttpStatus.BadRequest,
      Validation(HttpStatus.BadRequest, ValidationError, ParamsInvalidMessage, requestUri, Some(details), errorId, now))
  }

  /** `handleNotFound`: 404, NOT_FOUND, the exception's message unless null or blank. */
  function HandleNotFound(message: Option<string>, requestUri: string, errorId: Uuid, now: Instant): (r: ResponseEntity)
    ensures r.status == HttpStatus.NotFound && r.body.status == r.status && r.body.code == NotFound
    ensures HasText(message) ==> r.body.message == message.value
    ensures !HasText(message) ==> r.body.message == NotFoundFallback
    ensures r.body.details == []
    ensures r.body.path == requestUri && r.body.errorId == errorId && r.body.timestamp == now
  {
    ResponseEntity(HttpStatus.NotFound,
      Of(HttpStatus.NotFound, NotFound, EchoOr(message, NotFoundFallback), requestUri, errorId, now))
  }

  /** `handleIllegalArgument`: 400, BAD_REQUEST, the exception's message unless null or blank. */
  function HandleIllegalArgument(message: Option<string>, requestUri: string, errorId: Uuid, now: Instant): (r: ResponseEntity)
    ensures r.status == HttpStatus.BadRequest && r.body.status == r.status && r.body.code == BadRequest
    ensures HasText(message) ==> r.body.message == message.value
    ensures !HasText(message) ==> r.body.message == BadRequestFallback
    ensures r.body.details == []
    ensures r.body.path == requestUri && r.body.errorId == errorId && r.body.timestamp == now
  {
    ResponseEntity(HttpStatus.BadRequest,
      Of(HttpStatus.BadRequest, BadRequest, EchoOr(message, BadRequestFallback), requestUri, errorId, now))
  }

  /** `handleDataIntegrity`: 409, CONFLICT, a fixed message; the exception is not read. */
  function HandleDataIntegrity(message: Option<string>, requestUri: string, errorId: Uuid, now: Instant): (r: ResponseEntity)
    ensures r.status == HttpStatus.Conflict && r.body.status == r.status && r.body.code == Conflict
    ensures r.body.message == ConflictMessage && r.body.details == []
    ensures r.body.path == requestUri && r.body.errorId == errorId && r.body.timestamp == now
  {
    ResponseEntity(HttpStatus.Conflict, Of(HttpStatus.Conflict, Conflict, ConflictMessage, requestUri, errorId, now))
  }

  /** `handleGeneric`: 500, INTERNAL_ERROR, a fixed message; the exception only goes to the log. */
  function HandleGeneric(message: Option<string>, requestUri: string, errorId: Uuid, now: Instant): (r: ResponseEntity)
    ensures r.status == HttpStatus.InternalServerError && r.body.status == r.status && r.body.code == InternalError
    ensures r.body.message == InternalMessage && r.body.details == []
    ensures r.body.path == requestUri && r.body.errorId == errorId && r.body.timestamp == now
  {
    ResponseEntity(HttpStatus.InternalServerError,
      Of(HttpStatus.InternalServerError, InternalError, InternalMessage, requestUri, errorId, now))
  }

  /** The whole mapper: every failure goes to exactly one handler. */
  function Handle(f: Failure, requestUri: string, errorId: Uuid, now: Instant): (r: ResponseEntity)
    ensures r.body.path == requestUri && r.body.errorId == errorId && r.body.timestamp == now
  {
    match f
    case MethodArgumentNotValid(fes) => HandleMethodArgumentNotValid(fes, requestUri, errorId, now)
    case ConstraintViolations(cvs) => HandleConstraintViolation(cvs, requestUri, errorId, now)
    case ResourceNotFound(m) => HandleNotFound(m, requestUri, errorId, now)
    case IllegalArgument(m) => HandleIllegalArgument(m, requestUri, errorId, now)
    case DataIntegrity(m) => HandleDataIntegrity(m, requestUri, errorId, now)
    case Unclassified(m) => HandleGeneric(m, requestUri, errorId, now)
  }

  /**
   * Where a thrown application exception lands: `NotFoundException` has a
   * handler of its own; `UnauthorizedException` and `ForbiddenException`
   * have none, so only the `Exception` fallback matches them.
   */
  function Classify(e: AppException): (f: Failure)
    ensures e.kind == NotFoundKind <==> f.ResourceNotFound?
    ensures f.ResourceNotFound? || f.Unclassified?
    ensures f.message == e.message
  {
    match e.kind
    case NotFoundKind => ResourceNotFound(e.message)
    case UnauthorizedKind => Unclassified(e.message)
    case ForbiddenKind => Unclassified(e.message)
  }

  /** The status each code stands for. The enum carries none; the handlers fix it. */
  ghost function CanonicalStatus(code: ErrorCode): int {
    match code
    case ValidationError => 400
    case BadRequest => 400
    case NotFound => 404
    case Conflict => 409
    case Unauthorized => 401
    case Forbidden => 403
    case InternalError => 500
  }

  /** Every response's status is the body's status, and that is the code's canonical status. */
  lemma StatusIsCanonical(f: Failure, requestUri: string, errorId: Uuid, now: Instant)
    ensures var r := Handle(f, requestUri, errorId, now);
      r.status == r.body.status && r.body.status == CanonicalStatus(r.body.code)
  {
  }

  /**
   * The code tells which kind of failure was handled, and the mapper never
   * answers UNAUTHORIZED or FORBIDDEN (those come from the security adapters).
   */
  lemma CodeIdentifiesFailure(f: Failure, requestUri: string, errorId: Uuid, now: Instant)
    ensures var c := Handle(f, requestUri, errorId, now).body.code;
      && (c == ValidationError <==> f.MethodArgumentNotValid? || f.ConstraintViolations?)
      && (c == NotFound <==> f.ResourceNotFound?)
      && (c == BadRequest <==> f.IllegalArgument?)
      && (c == Conflict <==> f.DataIntegrity?)
      && (c == InternalError <==> f.Unclassified?)
      && c != Unauthorized && c != Forbidden
  {
  }

  /**
   * Only validation failures carry details, and they carry exactly one per
   * reported failure; every other body therefore has no `details` key.
   */
  lemma DetailsOnlyForValidation(f: Failure, requestUri: string, errorId: Uuid, now: Instant)
    ensures var b := Handle(f, requestUri, errorId, now).body;
      && (b.code != ValidationError ==> b.details == [] && "details" !in Keys(Serialize(b)))
      && (f.MethodArgumentNotValid? ==> |b.details| == |f.fieldErrors|)
      && (f.ConstraintViolations? ==> |b.details| == |f.violations|)
  {
    DetailsKeyOmittedWhenEmpty(Handle(f, requestUri, errorId, now).body);
  }

  /** Body validation keeps the binding result's order, one detail per field error. */
  lemma BodyValidationDetails(fieldErrors: seq<FieldError>, requestUri: string, errorId: Uuid, now: Instant)
    ensures Handle(MethodArgumentNotValid(fieldErrors), requestUri, errorId, now).body.details == FromFieldErrors(fieldErrors)
  {
  }

  /** No body ever carries a null, empty or blank message. */
  lemma MessageNeverBlank(f: Failure, requestUri: string, errorId: Uuid, now: Instant)
    ensures !IsBlank(Handle(f, requestUri, errorId, now).body.message)
  {
    NotBlankWitness(BodyInvalidMessage, 0);
    NotBlankWitness(ParamsInvalidMessage, 0);
    NotBlankWitness(NotFoundFallback, 0);
    NotBlankWitness(BadRequestFallback, 0);
    NotBlankWitness(ConflictMessage, 0);
    NotBlankWitness(InternalMessage, 0);
  }

  /**
   * The CONFLICT and INTERNAL_ERROR bodies do not depend on the exception at
   * all, so none of its text can reach the client.
   */
  lemma FixedMessagesDoNotEcho(m1: Option<string>, m2: Option<string>, requestUri: string, errorId: Uuid, now: Instant)
    ensures Handle(DataIntegrity(m1), requestUri, errorId, now) == Handle(DataIntegrity(m2), requestUri, errorId, now)
    ensures Handle(Unclassified(m1), requestUri, errorId, now) == Handle(Unclassified(m2), requestUri, errorId, now)
  {
  }

  /**
   * A `NotFoundException` built from a message answers 404 with that message
   * when it has text; one built from a cause echoes the cause's `toString()`.
   */
  lemma NotFoundExceptionReachesClient(m: Option<string>, cause: Throwable, requestUri: string, errorId: Uuid, now: Instant)
    ensures var r := Handle(Classify(WithMessage(NotFoundKind, m)), requestUri, errorId, now);
      r.status == 404 && r.body.message == (if HasText(m) then m.value else NotFoundFallback)
    ensures var r := Handle(Classify(WithCause(NotFoundKind, Some(cause))), requestUri, errorId, now);
      r.status == 404 && (!IsBlank(ToString(cause)) ==> r.body.message == ToString(cause))
  {
  }

  /**
   * `UnauthorizedException` and `ForbiddenException` thrown by a controller
   * fall to the fallback: 500 INTERNAL_ERROR, not 401 or 403.
   */
  lemma SecurityExceptionsFallBack(e: AppException, requestUri: string, errorId: Uuid, now: Instant)
    requires e.kind != NotFoundKind
    ensures var r := Handle(Classify(e), requestUri, errorId, now);
      r.status == 500 && r.body.code == InternalError && r.body.message == InternalMessage
  {
  }
}
