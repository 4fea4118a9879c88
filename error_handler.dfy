/** The error middleware of src/middleware/error-handler.ts: what status and
    error body a thrown error is answered with, and the 404 answer for an
    unknown route.  Every error body carries `success: false`, so the body
    here holds only the `error` object. */
module ErrorHandler {
  import opened Wrappers

  /** A thrown value: an `AppError`, or any other `Error`. */
  datatype Thrown =
    | AppError(message: string, statusCode: int, errorType: string, details: Option<string>, stack: Option<string>)
    | PlainError(message: string, stack: Option<string>)

  /** A string field read as a condition: present and non-empty. */
  predicate Truthy(s: Option<string>) {
    s.Some? && s.value != ""
  }

  /** `new AppError(message, statusCode?, type?, details?)`: an omitted
      status is 500 and an omitted type `InternalError`. */
  function NewAppError(message: string, statusCode: Option<int>, errorType: Option<string>,
                       details: Option<string>, stack: Option<string>): (e: Thrown)
    ensures e.AppError? && e.message == message && e.details == details
    ensures statusCode.None? ==> e.statusCode == 500
    ensures statusCode.Some? ==> e.statusCode == statusCode.value
    ensures errorType.None? ==> e.errorType == "InternalError"
    ensures errorType.Some? ==> e.errorType == errorType.value
  {
    AppError(message, statusCode.GetOr(500), errorType.GetOr("InternalError"), details, stack)
  }

  datatype ErrorBody = ErrorBody(errorType: string, message: string, statusCode: int, details: Option<string>)
  datatype ErrorResponse = ErrorResponse(status: int, error: ErrorBody)

  /** `errorHandler`: the status and type of an `AppError`, 500 and
      `InternalError` for anything else; the stack as details in
      development, overridden by an `AppError`'s own details. */
  function Handle(err: Thrown, isDevelopment: bool): (r: ErrorResponse)
    ensures r.status == r.error.statusCode
    ensures r.status == (if err.AppError? then err.statusCode else 500)
    ensures r.error.errorType == (if err.AppError? then err.errorType else "InternalError")
    ensures r.error.message == (if err.message != "" then err.message else "Internal server error")
  {
    var statusCode := if err.AppError? then err.statusCode else 500;
    var errorType := if err.AppError? then err.errorType else "InternalError";
    var message := if err.message != "" then err.message else "Internal server error";
    var fromStack := if isDevelopment && Truthy(err.stack) then err.stack else None;
    var details := if err.AppError? && Truthy(err.details) then err.details else fromStack;
    ErrorResponse(statusCode, ErrorBody(errorType, message, statusCode, details))
  }

  /** Details come from one of two places: an `AppError`'s own details,
      which win, or the stack, and the stack only in development. */
  lemma DetailsSources(err: Thrown, isDevelopment: bool)
    ensures err.AppError? && Truthy(err.details) ==> Handle(err, isDevelopment).error.details == err.details
    ensures !(err.AppError? && Truthy(err.details)) ==>
      Handle(err, isDevelopment).error.details == (if isDevelopment && Truthy(err.stack) then err.stack else None)
    ensures !isDevelopment && !(err.AppError? && Truthy(err.details)) ==> Handle(err, isDevelopment).error.details.None?
  {
  }

  /** A plain error is always a 500 `InternalError`; an `AppError` built
      with no status and type is answered exactly the same way. */
  lemma DefaultsMatchPlainErrors(message: string, stack: Option<string>, isDevelopment: bool)
    ensures Handle(PlainError(message, stack), isDevelopment) ==
            Handle(NewAppError(message, None, None, None, stack), isDevelopment)
    ensures Handle(PlainError(message, stack), isDevelopment).status == 500
  {
  }

  /** `notFoundHandler`: 404 `NotFoundError` naming the method and URL. */
  function NotFound(httpMethod: string, url: string): (r: ErrorResponse)
    ensures r.status == 404 && r.error.statusCode == 404 && r.error.errorType == "NotFoundError"
    ensures r.error.details.None?
    ensures r.error.message == "Route not found: " + httpMethod + " " + url
  {
    ErrorResponse(404, ErrorBody("NotFoundError", "Route not found: " + httpMethod + " " + url, 404, None))
  }

  /** Different routes get different messages. */
  lemma NotFoundNamesTheRoute(m1: string, u1: string, m2: string, u2: string)
    requires |m1| == |m2|
    requires NotFound(m1, u1) == NotFound(m2, u2)
    ensures m1 == m2 && u1 == u2
  {
    var p := "Route not found: ";
    var s1 := p + m1 + " " + u1;
    var s2 := p + m2 + " " + u2;
    assert s1 == s2;
    assert m1 == s1[|p|..|p| + |m1|];
    assert m2 == s2[|p|..|p| + |m2|];
    assert u1 == s1[|p| + |m1| + 1..];
    assert u2 == s2[|p| + |m2| + 1..];
  }
}
