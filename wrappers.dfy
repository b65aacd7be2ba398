/** Option and Result, the JavaScript `null`/`undefined` and HTTP error paths. */
module Wrappers {

  datatype Option<+T> = None | Some(value: T) {
    /** The value, or `default` when absent (JavaScript's `x || default` for a present non-zero value). */
    function GetOr(default: T): T {
      match this
      case Some(v) => v
      case None => default
    }
  }

  /** The error statuses the HTTP handlers answer with. */
  datatype HttpError = BadRequest(message: string) | NotFound(message: string)

  datatype Result<+T> = Ok(value: T) | Err(error: HttpError)
}
