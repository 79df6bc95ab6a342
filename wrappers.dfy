/** Optional values and success/failure values, used for Go's nil-able
    results (a `[]byte` that may be nil, an `error` that may be nil) and
    for the outcome of decoding a response body. */
module Wrappers {

  datatype Option<+T> = None | Some(value: T) {

    /** The wrapped value, or `default` when there is none. */
    function GetOr(default: T): T {
      match this
      case Some(v) => v
      case None => default
    }
  }

  datatype Result<+R, +E> = Success(value: R) | Failure(error: E)
}
