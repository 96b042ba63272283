/** Option and Result: Java's nullable values, `Optional` and checked exceptions. */
module Wrappers {

  /** A Java reference that may be null, or an `Optional`. */
  datatype Option<+T> = None | Some(value: T) {
    function GetOr(default: T): T {
      match this
      case Some(v) => v
      case None => default
    }
  }

  /** A call that either returns a value or throws an exception. */
  datatype Result<+T, +E> = Success(value: T) | Failure(error: E)
}
