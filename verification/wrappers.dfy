/** Optional values and results shared by the server and client models. */
module Wrappers {

  /** A value that may be absent (Python `None`, JavaScript `null`/`undefined`). */
  datatype Option<+T> = None | Some(value: T) {
    function GetOr(default: T): T {
      match this
      case Some(v) => v
      case None => default
    }
  }

  /** The outcome of a request: a payload, or an error value. */
  datatype Result<+T, +E> = Ok(value: T) | Err(error: E)
}
