/** An optional value, and a result that is either a value or the error a
    Python `raise` would have carried. */
module Wrappers {

  /** An optional value; `None` stands for Python's `None`. */
  datatype Option<+T> = None | Some(value: T) {

    /** The wrapped value, or `default` when there is none. */
    function GetOr(default: T): T {
      match this
      case Some(v) => v
      case None => default
    }
  }

  /** Either the value a call returned or the error it raised. */
  datatype Result<+R, +E> = Success(value: R) | Failure(error: E)
}
