# arch_ref fault translator, modelled in Dafny

This project models the global exception handler of the arch_ref CRUD backend
(`AllExceptionHandler`). Each fault that reaches one of its five handlers is
turned into one HTTP error response. The response has a status line and a body with `status`,
`title`, `details`, `timestamp` and `developerMessage`. A field-validation failure
also gets a `violations` map from field name to message.

- `violations.dfy`, module `Violations`: the field errors of a rejected request
  (`FieldError`) and `getViolations`. The source builds the map with a loop that
  calls `put` once per error. `GetViolations` is that loop over a `seq` that updates
  a `map`. It is proved equal to `LastWriteWins`, the left fold of `put`. That fold
  is proved equal to `LastMessages`, a reference map stated without a fold: each
  field named by some error maps to the message of the LAST error on that field.
- `exception_handler.dfy`, module `ExceptionHandler`: faults as a tagged union
  (`InvalidType`, `Conflict`, `ResourceNotFound`, `FieldValidation`, `Other`). The
  module also holds the response records, the five handlers as pure functions and
  `Translate`, which picks the handler by the fault's tag. The framework picks the
  handler by exception class in the source. The clock reading is an argument (`now`).

The status line and the body's `status` are written separately in the source. Three
handlers pass the literals 400, 409 and 404 to the status line. The body always
takes `HttpStatus.X.value()`. The model keeps these two sources apart: the status
line holds an `int`, and the body's status comes from `HttpStatus.Value()`. Their
agreement is therefore proved, not assumed.

`HashMap.put` replaces a key's previous value (AllExceptionHandler.java:117), so
when several errors name the same field, the last error on that field wins.

## Model

| member | source | states |
|---|---|---|
| `ExceptionHandler.HandleInvalidTypeException` | src/main/java/com/projects/arch_ref/interfaces/http/inbound/handler/AllExceptionHandler.java:29-43 | The status line is 400 and the body's status equals it. The title is "InvalidTypeException Exception". The details are the exception's message, unchanged. The developer message is the class name and the timestamp is the given clock reading. |
| `ExceptionHandler.HandleConflictException` | src/main/java/com/projects/arch_ref/interfaces/http/inbound/handler/AllExceptionHandler.java:45-61 | The status line is 409 and the body's status equals it. The title is "Conflict Exception". The details are the message, unchanged. The developer message is the class name and the timestamp is the clock reading. |
| `ExceptionHandler.HandleResourceNotFoundException` | src/main/java/com/projects/arch_ref/interfaces/http/inbound/handler/AllExceptionHandler.java:63-79 | The status line is 404 and the body's status equals it. The title is "Resource Exception". The details are the message, unchanged. The developer message is the class name and the timestamp is the clock reading. |
| `ExceptionHandler.HandleMethodArgumentNotValid` | src/main/java/com/projects/arch_ref/interfaces/http/inbound/handler/AllExceptionHandler.java:81-96 | The status is 400 for any number of field errors, including none. The body is a validation body titled "Field Validation Exception" with details "Check the wrong fields". Its violations have exactly the named fields as keys, and each holds the message of the last error on that field. |
| `ExceptionHandler.HandleException` | src/main/java/com/projects/arch_ref/interfaces/http/inbound/handler/AllExceptionHandler.java:98-110 | The status line is 500 and the body's status equals it. The title is "Internal Server Error". The details are always "Unexpected error occurred.", never the fault's message. The developer message is the class name. |
| `ExceptionHandler.Translate` | src/main/java/com/projects/arch_ref/interfaces/http/inbound/handler/AllExceptionHandler.java:29-110 | Every modelled fault gets one response whose body status equals the status line. The status is one of 400, 404, 409 or 500. Each status holds exactly for its fault kinds (both directions). Each fault kind gets its own title. The details echo the message only for the three domain faults. Only field-validation faults get a violations map: its keys are their field names, and each holds the message of the last error on that field. |
| `ExceptionHandler.TitleIdentifiesFault` | src/main/java/com/projects/arch_ref/interfaces/http/inbound/handler/AllExceptionHandler.java:29-110 | The five titles are pairwise distinct, so a response's title determines which kind of fault produced it. |
| `ExceptionHandler.UnclassifiedHidesMessage` | src/main/java/com/projects/arch_ref/interfaces/http/inbound/handler/AllExceptionHandler.java:98-110 | Two unclassified faults that differ only in their message get identical responses, so the message cannot leak to the caller. |
| `ExceptionHandler.TranslateDeterministic` | src/main/java/com/projects/arch_ref/interfaces/http/inbound/handler/AllExceptionHandler.java:29-110 | Translating the same fault at two times gives the same status and the same body, apart from the timestamp. |
| `ExceptionHandler.ResourceNotFoundExample` | src/main/java/com/projects/arch_ref/interfaces/http/inbound/handler/AllExceptionHandler.java:63-79 | A ResourceNotFound fault with message "Person 42 not found" yields 404, "Resource Exception" and that message as details. |
| `ExceptionHandler.TwoFieldErrorsExample` | src/main/java/com/projects/arch_ref/interfaces/http/inbound/handler/AllExceptionHandler.java:81-120 | Errors on "email" and "birthDate" yield 400 with violations keyed by exactly those two fields, each holding its own message. |
| `Violations.GetViolations` | src/main/java/com/projects/arch_ref/interfaces/http/inbound/handler/AllExceptionHandler.java:112-120 | The loop's map equals the left fold of `put` over the errors. Its keys are exactly the named fields. It equals the reference map of last messages. |
| `Violations.LastWriteWinsKeys` | src/main/java/com/projects/arch_ref/interfaces/http/inbound/handler/AllExceptionHandler.java:112-120 | The fold's keys are exactly the field names in the list. The map is empty if and only if the list is empty. |
| `Violations.LastWriteWinsIsLastMessages` | src/main/java/com/projects/arch_ref/interfaces/http/inbound/handler/AllExceptionHandler.java:114-118 | The fold of `put` equals the reference map, where each named field holds the message of its last error. |
| `Violations.LastErrorWins` | src/main/java/com/projects/arch_ref/interfaces/http/inbound/handler/AllExceptionHandler.java:114-118 | If no later error names the same field, this error's message is that field's value in the map, and any earlier message for the field is overwritten. |
| `Violations.LastIndexOf` | src/main/java/com/projects/arch_ref/interfaces/http/inbound/handler/AllExceptionHandler.java:114-118 | Returns the position of an error on the field with no later error on it, or -1 when no error names the field. |

## Left out

- Annotation-driven dispatch (`@ExceptionHandler`, `@RestControllerAdvice`, overriding `ResponseEntityExceptionHandler`) is left out. The framework's choice of handler by exception class is replaced by the tag of `Fault`. The `@ResponseStatus` annotations are left out too, because each handler returns an explicit response status.
- The handlers inherited from `ResponseEntityExceptionHandler` (AllExceptionHandler.java:27) are not modelled. That base class is not part of this model. It answers Spring MVC's own exceptions itself, with their own statuses and an empty body; examples are an unsupported method, an unreadable message, a missing parameter and a `BindException`. Those exceptions never reach `handleException`. `Fault.Other` therefore stands only for exceptions that reach `handleException(Exception)` (AllExceptionHandler.java:98-110), not for every fault raised during request handling.
- Logging (`log.error`, `log.info`) and `printStackTrace` are left out. They are output side effects that do not affect the response.
- `LocalDateTime.now()` reads the wall clock. The reading is a parameter of every handler instead.
- `ResponseEntity`, `HttpHeaders`, `WebRequest` and the Lombok builders become plain immutable records. The `headers`, `status` and `request` arguments of `handleMethodArgumentNotValid` are unused by the source, so the model does not take them.
- Java `null` is not modelled: messages are plain strings. A `null` from `getMessage()` or `getDefaultMessage()` would be copied verbatim like any other value, so no branch depends on it.
- `getFieldErrors()` and `getClass().getName()` belong to framework or runtime objects that are not part of this model. The fault carries their results: the list of field errors and the class name.
- The `ExceptionDetails` and `ValidationExceptionDetails` DTOs are not part of this model. Only the field shapes the handler fills in are modelled, as `ErrorBody`.
- `Person` (src/main/java/com/projects/arch_ref/domain/entity/Person.java) is a data holder with no operations or invariants, so it is not modelled.
