/** Shared result shapes: optional values, the application's exception
    classes (api/exceptions.py) and the 400/500 JSON error bodies
    (api/errors.py). */
module Outcomes {

  datatype Option<+T> = None | Some(value: T) {
    /** Python's `d.get(key, default)` on a key that may be absent. */
    function GetOr(default: T): T {
      if Some? then value else default
    }
  }

  /** An exception a stage can raise. The three application classes carry
      their message (`str(e)`); any other Python exception is recorded only by
      its class name, because no caller ever shows its text. */
  datatype Exc =
    | StockDataError(message: string)
    | RedditAPIError(message: string)
    | AnalysisError(message: string)
    | Unexpected(className: string)

  /** A call that either returns a value or raises. */
  datatype Outcome<+T> = Ok(value: T) | Raise(exc: Exc)

  /** The JSON error response built by `bad_request` and `internal_error`. */
  datatype HttpError = HttpError(code: int, error: string, message: string)

  function BadRequest(message: string): (e: HttpError)
    ensures e.code == 400 && e.error == "bad request" && e.message == message
  {
    HttpError(400, "bad request", message)
  }

  function InternalError(message: string): (e: HttpError)
    ensures e.code == 500 && e.error == "internal server error" && e.message == message
  {
    HttpError(500, "internal server error", message)
  }
}
