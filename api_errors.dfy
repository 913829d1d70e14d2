/**
 * The server's error value (`ApiError`), its static constructors, and the status mapping of
 * the `errorHandler` defined beside it (server/src/utils/error.ts).
 */
module ApiErrors {
  import opened Wrappers

  /** One `{field, message}` entry of a validation failure. */
  datatype FieldIssue = FieldIssue(field: string, message: string)

  /**
   * A truthy `data` payload: a list of field issues, or any other value, kept opaque.
   * A falsy payload (`null`, `undefined`, ...) is `None` wherever an `Option<ErrorData>` is expected.
   */
  datatype ErrorData = Issues(issues: seq<FieldIssue>) | Opaque(tag: string)

  /**
   * An `ApiError`: status code, message, optional data and the operational flag that
   * distinguishes expected failures from programming or infrastructure faults.
   */
  datatype ApiError = ApiError(statusCode: int, message: string, data: Option<ErrorData>, isOperational: bool)

  /** `new ApiError(statusCode, message)`: data defaults to null, isOperational to true. */
  function NewApiError(statusCode: int, message: string): ApiError {
    ApiError(statusCode, message, None, true)
  }

  /** The message of a static constructor: the argument when given, else its default. */
  function MessageOr(message: Option<string>, default: string): string {
    if message.Some? then message.value else default
  }

  function BadRequest(message: string, data: Option<ErrorData>): ApiError {
    ApiError(400, message, data, true)
  }

  function Unauthorized(message: Option<string>, data: Option<ErrorData>): ApiError {
    ApiError(401, MessageOr(message, "Unauthorized"), data, true)
  }

  function Forbidden(message: Option<string>, data: Option<ErrorData>): ApiError {
    ApiError(403, MessageOr(message, "Forbidden"), data, true)
  }

  function NotFound(message: Option<string>, data: Option<ErrorData>): ApiError {
    ApiError(404, MessageOr(message, "Not Found"), data, true)
  }

  function Conflict(message: Option<string>, data: Option<ErrorData>): ApiError {
    ApiError(409, MessageOr(message, "Conflict"), data, true)
  }

  function TooManyRequests(message: Option<string>, data: Option<ErrorData>): ApiError {
    ApiError(429, MessageOr(message, "Too Many Requests"), data, true)
  }

  function Internal(message: Option<string>, data: Option<ErrorData>): ApiError {
    ApiError(500, MessageOr(message, "Internal Server Error"), data, false)
  }

  function NotImplemented(message: Option<string>, data: Option<ErrorData>): ApiError {
    ApiError(501, MessageOr(message, "Not Implemented"), data, false)
  }

  function ServiceUnavailable(message: Option<string>, data: Option<ErrorData>): ApiError {
    ApiError(503, MessageOr(message, "Service Unavailable"), data, false)
  }

  /** The nine static constructors, by name. */
  datatype Constructor =
    | BadRequestC | UnauthorizedC | ForbiddenC | NotFoundC | ConflictC
    | TooManyRequestsC | InternalC | NotImplementedC | ServiceUnavailableC

  function Construct(c: Constructor, message: Option<string>, data: Option<ErrorData>): ApiError {
    match c
    case BadRequestC => BadRequest(MessageOr(message, ""), data)
    case UnauthorizedC => Unauthorized(message, data)
    case ForbiddenC => Forbidden(message, data)
    case NotFoundC => NotFound(message, data)
    case ConflictC => Conflict(message, data)
    case TooManyRequestsC => TooManyRequests(message, data)
    case InternalC => Internal(message, data)
    case NotImplementedC => NotImplemented(message, data)
    case ServiceUnavailableC => ServiceUnavailable(message, data)
  }

  /** The status code each static constructor stands for. */
  function ConstructorStatus(c: Constructor): int {
    match c
    case BadRequestC => 400
    case UnauthorizedC => 401
    case ForbiddenC => 403
    case NotFoundC => 404
    case ConflictC => 409
    case TooManyRequestsC => 429
    case InternalC => 500
    case NotImplementedC => 501
    case ServiceUnavailableC => 503
  }

  /**
   * Every static constructor yields its status, passes the data through, keeps a supplied
   * message, and is operational exactly when it is a client error (status below 500).
   */
  lemma ConstructorsTable(c: Constructor, message: Option<string>, data: Option<ErrorData>)
    ensures Construct(c, message, data).statusCode == ConstructorStatus(c)
    ensures Construct(c, message, data).data == data
    ensures message.Some? ==> Construct(c, message, data).message == message.value
    ensures Construct(c, message, data).isOperational <==> ConstructorStatus(c) < 500
    ensures !Construct(c, message, data).isOperational <==> c in {InternalC, NotImplementedC, ServiceUnavailableC}
  {
  }

  /**
   * Anything a handler can throw or pass to `next`: an `ApiError`, or another error object
   * with the fields the handlers look at (`statusCode` 0 stands for absent, `message` "" for
   * absent). `errors` is the field list of a validation error, `hasStack` whether `stack` is set.
   */
  datatype Thrown =
    | Api(err: ApiError)
    | Other(name: string, message: string, statusCode: int, data: Option<ErrorData>,
            code: Option<string>, errors: Option<seq<FieldIssue>>, hasStack: bool)

  function NameOf(t: Thrown): string { if t.Api? then "Error" else t.name }
  function MessageOf(t: Thrown): string { if t.Api? then t.err.message else t.message }
  function StatusOf(t: Thrown): int { if t.Api? then t.err.statusCode else t.statusCode }
  function DataOf(t: Thrown): Option<ErrorData> { if t.Api? then t.err.data else t.data }
  function CodeOf(t: Thrown): Option<string> { if t.Api? then None else t.code }
  function HasStack(t: Thrown): bool { t.Api? || t.hasStack }

  /** The JSON error response: status, `success`, message, data, and whether a stack is attached. */
  datatype ErrorBody = ErrorBody(status: int, success: bool, message: string, data: Option<ErrorData>, includesStack: bool)

  /**
   * The `errorHandler` of server/src/utils/error.ts. It starts from the defaults and then
   * lets each special case overwrite status and message in turn, so a later rule wins:
   * JWT errors, then validation errors, then the unique-constraint code P2002.
   * `None` stands for the handler itself throwing, which happens when a validation error
   * carries no `errors` object.
   */
  method HandleError(err: Thrown, development: bool) returns (r: Option<ErrorBody>)
    ensures r.None? <==> (NameOf(err) == "ValidationError" && err.Other? && err.errors.None?)
    ensures r.Some? ==> !r.value.success
    ensures r.Some? ==> r.value.includesStack == (development && HasStack(err))
    ensures r.Some? && CodeOf(err) == Some("P2002") ==>
              r.value.status == 409 && r.value.message == "A record with this data already exists"
    ensures r.Some? && CodeOf(err) != Some("P2002") && NameOf(err) == "ValidationError" ==>
              r.value.status == 422 && r.value.message == "Validation failed"
    ensures r.Some? && CodeOf(err) != Some("P2002") && NameOf(err) == "TokenExpiredError" ==>
              r.value.status == 401 && r.value.message == "Token expired"
    ensures r.Some? && CodeOf(err) != Some("P2002") && NameOf(err) == "JsonWebTokenError" ==>
              r.value.status == 401 && r.value.message == "Invalid token"
    ensures r.Some? && CodeOf(err) != Some("P2002")
              && NameOf(err) !in {"ValidationError", "TokenExpiredError", "JsonWebTokenError"} ==>
              r.value.status == (if StatusOf(err) != 0 then StatusOf(err) else 500)
              && r.value.message == (if MessageOf(err) != "" then MessageOf(err) else "Internal Server Error")
    ensures r.Some? && NameOf(err) == "ValidationError" ==> r.value.data == Some(Issues(err.errors.value))
    ensures r.Some? && NameOf(err) != "ValidationError" ==> r.value.data == DataOf(err)
  {
    var status := if StatusOf(err) != 0 then StatusOf(err) else 500;
    var message := if MessageOf(err) != "" then MessageOf(err) else "Internal Server Error";
    var data := DataOf(err);
    var name := NameOf(err);
    if name == "JsonWebTokenError" {
      message := "Invalid token";
      status := 401;
    }
    if name == "TokenExpiredError" {
      message := "Token expired";
      status := 401;
    }
    if name == "ValidationError" {
      message := "Validation failed";
      status := 422;
      if err.Api? || err.errors.None? {
        return None;
      }
      data := Some(Issues(err.errors.value));
    }
    if CodeOf(err) == Some("P2002") {
      message := "A record with this data already exists";
      status := 409;
    }
    return Some(ErrorBody(status, false, message, data, development && HasStack(err)));
  }
}
