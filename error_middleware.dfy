/**
 * The application-wide error middleware (server/src/middleware/error.middleware.ts): it wraps
 * anything that is not an `ApiError` into a 500 and answers with the common JSON error shape.
 */
module ErrorMiddleware {
  import opened Wrappers
  import opened ApiErrors

  /** `err instanceof ApiError ? err : new ApiError(500, err?.message || 'Internal Server Error')`. */
  function Wrap(err: Thrown): (e: ApiError)
    ensures err.Api? ==> e == err.err
    ensures err.Other? ==> e.statusCode == 500 && e.data.None?
    ensures err.Other? ==> e.message == (if err.message != "" then err.message else "Internal Server Error")
  {
    if err.Api? then err.err
    else NewApiError(500, if err.message != "" then err.message else "Internal Server Error")
  }

  /**
   * The response: `success` is always false, an `ApiError` keeps its own message and (truthy)
   * status, a falsy status falls back to 500, and the stack is attached only in development.
   * Any other thrown value answers 500, even one that carries its own status code.
   */
  function Respond(err: Thrown, development: bool): (body: ErrorBody)
    ensures !body.success
    ensures err.Api? ==> body.message == err.err.message && body.data == err.err.data
    ensures err.Api? && err.err.statusCode != 0 ==> body.status == err.err.statusCode
    ensures err.Api? && err.err.statusCode == 0 ==> body.status == 500
    ensures err.Other? ==> body.status == 500 && body.data.None?
    ensures err.Other? ==> body.message == (if err.message != "" then err.message else "Internal Server Error")
    ensures body.includesStack <==> development && HasStack(err)
  {
    var apiErr := Wrap(err);
    ErrorBody(if apiErr.statusCode != 0 then apiErr.statusCode else 500, false, apiErr.message,
              apiErr.data, development && HasStack(err))
  }
}
