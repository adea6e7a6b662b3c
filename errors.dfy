/** Error mapping (backend/src/middleware/errorHandler.ts): the application's
    own error carrying a status, the global handler that turns any error
    into a status and JSON body, and the handler for unknown routes. */
module Errors {
  import opened Common

  /** An error reaching the handler: an `AppError`, or any other error
      known by its `name` and `message`. */
  datatype Failure =
    | AppFailure(message: string, statusCode: int, isOperational: bool)
    | Thrown(name: string, message: string)

  /** The JSON body and status the handlers send; every one has `success: false`. */
  datatype ErrorResponse = ErrorResponse(status: int, success: bool, error: string, message: Option<string>)

  const InvalidToken: string := "Invalid token"
  const TokenExpired: string := "Token expired"
  const ValidationErrorText: string := "Validation Error"
  const InternalError: string := "Internal server error"

  /** `new AppError(message, statusCode)`: always operational. */
  function NewAppError(message: string, statusCode: int): (e: Failure)
    ensures e.AppFailure? && e.isOperational
    ensures e.message == message && e.statusCode == statusCode
  {
    AppFailure(message, statusCode, true)
  }

  /** `errorHandler`: an AppError first, then the error names
      ValidationError, JsonWebTokenError and TokenExpiredError, then 500
      (with the message only in development). */
  function HandleError(err: Failure, nodeEnv: Option<string>): (r: ErrorResponse)
    ensures !r.success
    ensures err.AppFailure? ==> r.status == err.statusCode && r.error == err.message
    ensures err.Thrown? ==> r.status in {400, 401, 500}
    ensures r.message.Some? ==> r.message.value == err.message
  {
    if err.AppFailure? then ErrorResponse(err.statusCode, false, err.message, None)
    else if err.name == "ValidationError" then ErrorResponse(400, false, ValidationErrorText, Some(err.message))
    else if err.name == "JsonWebTokenError" then ErrorResponse(401, false, InvalidToken, None)
    else if err.name == "TokenExpiredError" then ErrorResponse(401, false, TokenExpired, None)
    else ErrorResponse(500, false, InternalError, if nodeEnv == Some("development") then Some(err.message) else None)
  }

  /** An AppError answers with its own status and message, whatever its
      name would otherwise select. */
  lemma AppErrorKeepsStatus(message: string, statusCode: int, nodeEnv: Option<string>)
    ensures var r := HandleError(NewAppError(message, statusCode), nodeEnv);
      r.status == statusCode && r.error == message && r.message.None? && !r.success
  {
  }

  /** Authentication errors: 401, with a text that tells an invalid token
      from an expired one. */
  lemma TokenErrors(message: string, nodeEnv: Option<string>)
    ensures HandleError(Thrown("JsonWebTokenError", message), nodeEnv) == ErrorResponse(401, false, InvalidToken, None)
    ensures HandleError(Thrown("TokenExpiredError", message), nodeEnv) == ErrorResponse(401, false, TokenExpired, None)
    ensures InvalidToken != TokenExpired
  {
  }

  /** A ValidationError is a 400 that carries the error's message. */
  lemma ValidationErrorIs400(message: string, nodeEnv: Option<string>)
    ensures HandleError(Thrown("ValidationError", message), nodeEnv) == ErrorResponse(400, false, ValidationErrorText, Some(message))
  {
  }

  /** Any other error is a 500 whose message is exposed exactly in development. */
  lemma OtherErrorsAre500(err: Failure, nodeEnv: Option<string>)
    requires err.Thrown?
    requires err.name != "ValidationError" && err.name != "JsonWebTokenError" && err.name != "TokenExpiredError"
    ensures HandleError(err, nodeEnv).status == 500 && HandleError(err, nodeEnv).error == InternalError
    ensures HandleError(err, nodeEnv).message.Some? <==> nodeEnv == Some("development")
    ensures HandleError(err, nodeEnv).message.Some? ==> HandleError(err, nodeEnv).message.value == err.message
  {
  }

  /** `notFoundHandler`: 404 naming the requested URL. */
  function NotFound(originalUrl: string): (r: ErrorResponse)
    ensures r.status == 404 && !r.success && r.message.None?
    ensures StartsWith(r.error, "Route ") && EndsWith(r.error, " not found")
    ensures |r.error| == |originalUrl| + 16 && r.error[6..|r.error| - 10] == originalUrl
  {
    ErrorResponse(404, false, "Route " + originalUrl + " not found", None)
  }
}
