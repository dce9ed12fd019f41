/** Optional values and results: JavaScript's `null`/missing keys and thrown exceptions. */
module Wrappers {

  /** A JavaScript `null`/`undefined` or a missing key becomes `None`. */
  datatype Option<+T> = None | Some(value: T) {

    /** The carried value, or `default` when there is none. */
    function GetOr(default: T): T {
      match this
      case Some(v) => v
      case None => default
    }
  }

  /** The value a call returns, or the exception it throws. */
  datatype Result<+T, +E> = Success(value: T) | Failure(error: E)
}
