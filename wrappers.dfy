/**
 * The optional values of the source (a nullable reference, an optional field
 * or an `undefined` lookup) and the outcome of an operation that may throw.
 */
module Wrappers {

  datatype Option<+T> = None | Some(value: T) {

    /** The value inside `Some`, or `default` for `None` (the source's `x ?? default` / `x || default`). */
    function GetOr(default: T): T {
      match this
      case Some(v) => v
      case None => default
    }
  }

  /** A value, or the message of the error thrown instead. */
  datatype Result<+T, +E> = Success(value: T) | Failure(error: E)
}
