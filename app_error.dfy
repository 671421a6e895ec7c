/**
 * The typed failure every layer raises (src/shared/errors/AppError.js) and the
 * machine-readable codes it carries. The code table itself (errorCodes.js) is
 * not part of this model; each code is written as the string the service sends.
 */
module Errors {
  import opened Wrappers

  datatype ErrorCode =
    | VALIDATION_ERROR
    | INVALID_QUERY
    | INVALID_ID
    | TOKEN_MISSING
    | TOKEN_INVALID
    | WRITE_TOKEN_MISSING
    | LOG_NOT_FOUND
    | DEPENDENCY_CONTRACT_ERROR
    | INTERNAL_ERROR
    | INVALID_SESSION
    | USER_INACTIVE

  datatype AppError = AppError(name: string, message: string, statusCode: int, code: ErrorCode)

  /**
   * `new AppError(message, { statusCode, code })`: an option left undefined (None)
   * takes its default, 500 and INTERNAL_ERROR; a given one is stored as is.
   */
  function NewAppError(message: string, statusCode: Option<int>, code: Option<ErrorCode>): (e: AppError)
    ensures e.name == "AppError" && e.message == message
    ensures statusCode.None? ==> e.statusCode == 500
    ensures statusCode.Some? ==> e.statusCode == statusCode.value
    ensures code.None? ==> e.code == INTERNAL_ERROR
    ensures code.Some? ==> e.code == code.value
  {
    AppError("AppError", message,
             if statusCode.Some? then statusCode.value else 500,
             if code.Some? then code.value else INTERNAL_ERROR)
  }

  /** The form every call site uses: both options given. */
  function Raise(message: string, statusCode: int, code: ErrorCode): (e: AppError)
    ensures e.name == "AppError" && e.message == message
    ensures e.statusCode == statusCode && e.code == code
  {
    NewAppError(message, Some(statusCode), Some(code))
  }

  /**
   * A check that either lets the caller go on or stops it with an error: what a
   * middleware hands to `next` (`next()` or `next(err)`), or a guard that returns
   * normally or throws.
   */
  datatype Outcome = Pass | Fail(error: AppError)
}
