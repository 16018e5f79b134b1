/**
 * The fault translator of `AllExceptionHandler`: each fault that reaches one of
 * its five handlers is turned into exactly one error response, a status line
 * plus a body that carries the status, a title, details, a timestamp and a
 * developer message. Which handler runs is decided here by matching on a tagged
 * fault instead of by the web framework's exception-class dispatch; the
 * handlers the class inherits from its framework base class are not modelled.
 */
module ExceptionHandler {
  import opened Violations

  /** A wall-clock reading; the caller supplies it in place of `LocalDateTime.now()`. */
  datatype LocalDateTime = LocalDateTime(year: int, month: int, day: int, hour: int, minute: int, second: int, nano: int)

  /** The four HTTP statuses the handlers use, with their numeric codes. */
  datatype HttpStatus = BadRequest | NotFound | Conflict | InternalServerError
  {
    function Value(): int
    {
      match this
      case BadRequest => 400
      case NotFound => 404
      case Conflict => 409
      case InternalServerError => 500
    }
  }

  /**
   * A raised fault. `className` is the runtime class name of the exception
   * object; `message` is what its `getMessage()` returns.
   */
  datatype Fault =
    | InvalidType(message: string, className: string)
    | Conflict(message: string, className: string)
    | ResourceNotFound(message: string, className: string)
    | FieldValidation(fieldErrors: seq<FieldError>, className: string)
    /** An exception that only the catch-all `Exception` handler takes. */
    | Other(message: string, className: string)

  /** The response body: plain details, or details with the per-field violations. */
  datatype ErrorBody =
    | ExceptionDetails(status: int, title: string, details: string,
                       timestamp: LocalDateTime, developerMessage: string)
    | ValidationExceptionDetails(status: int, title: string, details: string,
                                 timestamp: LocalDateTime, developerMessage: string,
                                 violations: map<string, string>)

  /** A response: the status code of the status line and the body. */
  datatype ResponseEntity = ResponseEntity(status: int, body: ErrorBody)

  const InvalidTypeTitle := "InvalidTypeException Exception"
  const ConflictTitle := "Conflict Exception"
  const ResourceTitle := "Resource Exception"
  const FieldValidationTitle := "Field Validation Exception"
  const InternalErrorTitle := "Internal Server Error"

  /** The details of a field-validation response, whatever the fields. */
  const FieldValidationDetails := "Check the wrong fields"
  /** The details of an unclassified fault's response, in place of its own message. */
  const GenericDetails := "Unexpected error occurred."

  /** The body the builder makes from a status constant and the four text fields. */
  function Details(status: HttpStatus, title: string, details: string,
                   now: LocalDateTime, className: string): ErrorBody
  {
    ExceptionDetails(status.Value(), title, details, now, className)
  }

  /** A malformed value: 400, with the exception's message as details. */
  function HandleInvalidTypeException(message: string, className: string, now: LocalDateTime): (r: ResponseEntity)
    ensures r.status == 400 && r.body.status == r.status
    ensures r.body.ExceptionDetails? && r.body.title == InvalidTypeTitle
    ensures r.body.details == message
    ensures r.body.developerMessage == className && r.body.timestamp == now
  {
    ResponseEntity(400, Details(HttpStatus.BadRequest, InvalidTypeTitle, message, now, className))
  }

  /** A conflicting update: 409, with the exception's message as details. */
  function HandleConflictException(message: string, className: string, now: LocalDateTime): (r: ResponseEntity)
    ensures r.status == 409 && r.body.status == r.status
    ensures r.body.ExceptionDetails? && r.body.title == ConflictTitle
    ensures r.body.details == message
    ensures r.body.developerMessage == className && r.body.timestamp == now
  {
    ResponseEntity(409, Details(HttpStatus.Conflict, ConflictTitle, message, now, className))
  }

  /** A missing resource: 404, with the exception's message as details. */
  function HandleResourceNotFoundException(message: string, className: string, now: LocalDateTime): (r: ResponseEntity)
    ensures r.status == 404 && r.body.status == r.status
    ensures r.body.ExceptionDetails? && r.body.title == ResourceTitle
    ensures r.body.details == message
    ensures r.body.developerMessage == className && r.body.timestamp == now
  {
    ResponseEntity(404, Details(HttpStatus.NotFound, ResourceTitle, message, now, className))
  }

  /**
   * Rejected request fields: 400 for any number of field errors, fixed details,
   * and the violations map with one key per field named by an error, holding
   * the message of the last error on that field.
   */
  function HandleMethodArgumentNotValid(fieldErrors: seq<FieldError>, className: string, now: LocalDateTime): (r: ResponseEntity)
    ensures r.status == 400 && r.body.status == r.status
    ensures r.body.ValidationExceptionDetails? && r.body.title == FieldValidationTitle
    ensures r.body.details == FieldValidationDetails
    ensures r.body.developerMessage == className && r.body.timestamp == now
    ensures r.body.violations.Keys == FieldNames(fieldErrors)
    ensures r.body.violations == LastMessages(fieldErrors)
  {
    var violations := LastWriteWins(fieldErrors);
    LastWriteWinsKeys(fieldErrors);
    LastWriteWinsIsLastMessages(fieldErrors);
    ResponseEntity(HttpStatus.BadRequest.Value(),
                   ValidationExceptionDetails(HttpStatus.BadRequest.Value(), FieldValidationTitle,
                                              FieldValidationDetails, now, className, violations))
  }

  /**
   * An exception that reaches the catch-all `Exception` handler, that is, one that
   * no other handler of the class or of its base class takes: 500, with details
   * that never repeat the fault's own message.
   */
  function HandleException(message: string, className: string, now: LocalDateTime): (r: ResponseEntity)
    ensures r.status == 500 && r.body.status == r.status
    ensures r.body.ExceptionDetails? && r.body.title == InternalErrorTitle
    ensures r.body.details == GenericDetails
    ensures r.body.developerMessage == className && r.body.timestamp == now
  {
    ResponseEntity(HttpStatus.InternalServerError.Value(),
                   Details(HttpStatus.InternalServerError, InternalErrorTitle, GenericDetails, now, className))
  }

  /**
   * The translator: every modelled fault yields one response whose body agrees with its
   * status line, whose status identifies the kind of fault, and whose details
   * echo the fault's message for the three domain faults only.
   */
  function Translate(fault: Fault, now: LocalDateTime): (r: ResponseEntity)
    ensures r.body.status == r.status
    ensures r.status in {400, 404, 409, 500}
    ensures r.status == 400 <==> fault.InvalidType? || fault.FieldValidation?
    ensures r.status == 404 <==> fault.ResourceNotFound?
    ensures r.status == 409 <==> fault.Conflict?
    ensures r.status == 500 <==> fault.Other?
    ensures r.body.developerMessage == fault.className && r.body.timestamp == now
    ensures r.body.ValidationExceptionDetails? <==> fault.FieldValidation?
    ensures fault.InvalidType? ==> r.body.title == InvalidTypeTitle
    ensures fault.Conflict? ==> r.body.title == ConflictTitle
    ensures fault.ResourceNotFound? ==> r.body.title == ResourceTitle
    ensures fault.FieldValidation? ==> r.body.title == FieldValidationTitle
    ensures fault.Other? ==> r.body.title == InternalErrorTitle
    ensures fault.FieldValidation? ==> r.body.violations.Keys == FieldNames(fault.fieldErrors)
    ensures fault.FieldValidation? ==> r.body.violations == LastMessages(fault.fieldErrors)
    ensures fault.InvalidType? || fault.Conflict? || fault.ResourceNotFound? ==> r.body.details == fault.message
    ensures fault.FieldValidation? ==> r.body.details == FieldValidationDetails
    ensures fault.Other? ==> r.body.details == GenericDetails
  {
    match fault
    case InvalidType(message, className) => HandleInvalidTypeException(message, className, now)
    case Conflict(message, className) => HandleConflictException(message, className, now)
    case ResourceNotFound(message, className) => HandleResourceNotFoundException(message, className, now)
    case FieldValidation(fieldErrors, className) => HandleMethodArgumentNotValid(fieldErrors, className, now)
    case Other(message, className) => HandleException(message, className, now)
  }

  /** The title of a response names the kind of fault it came from. */
  lemma TitleIdentifiesFault(f: Fault, g: Fault, now: LocalDateTime, later: LocalDateTime)
    requires Translate(f, now).body.title == Translate(g, later).body.title
    ensures f.InvalidType? <==> g.InvalidType?
    ensures f.Conflict? <==> g.Conflict?
    ensures f.ResourceNotFound? <==> g.ResourceNotFound?
    ensures f.FieldValidation? <==> g.FieldValidation?
    ensures f.Other? <==> g.Other?
  {
  }

  /** An unclassified fault's message never reaches the response: two messages give the same response. */
  lemma UnclassifiedHidesMessage(message: string, other: string, className: string, now: LocalDateTime)
    ensures Translate(Other(message, className), now) == Translate(Other(other, className), now)
  {
  }

  /** Translating the same fault twice gives the same response except for the timestamp. */
  lemma TranslateDeterministic(fault: Fault, now: LocalDateTime, later: LocalDateTime)
    ensures Translate(fault, later).status == Translate(fault, now).status
    ensures Translate(fault, later).body == Translate(fault, now).body.(timestamp := later)
  {
  }

  /** A missing person: the 404 response carries the message unchanged. */
  lemma ResourceNotFoundExample(className: string, now: LocalDateTime)
    ensures var r := Translate(ResourceNotFound("Person 42 not found", className), now);
            r.status == 404 && r.body.title == "Resource Exception"
            && r.body.details == "Person 42 not found"
  {
  }

  /** Two rejected fields: a 400 response whose violations are keyed by exactly those two fields. */
  lemma TwoFieldErrorsExample(emailMessage: string, birthDateMessage: string, className: string, now: LocalDateTime)
    ensures var errors := [FieldError("email", emailMessage), FieldError("birthDate", birthDateMessage)];
            var r := Translate(FieldValidation(errors, className), now);
            r.status == 400 && r.body.violations.Keys == {"email", "birthDate"}
            && r.body.violations["email"] == emailMessage
            && r.body.violations["birthDate"] == birthDateMessage
  {
    var errors := [FieldError("email", emailMessage), FieldError("birthDate", birthDateMessage)];
    LastErrorWins(errors, 0);
    LastErrorWins(errors, 1);
    assert FieldNames(errors) == {"email", "birthDate"};
  }
}
