/** Optional values and results with an error, as used throughout the model. */
module Wrappers {

  /** A value that may be absent: `undefined`/`null` on the client, `None` on the server. */
  datatype Option<+T> = None | Some(value: T) {
    function GetOr(default: T): T {
      match this
      case Some(v) => v
      case None => default
    }
  }

  /** The outcome of a server handler: a value, or the error it raises. */
  datatype Result<+R, +E> = Success(value: R) | Failure(error: E)
}
