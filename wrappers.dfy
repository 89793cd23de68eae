/** Java's nullable references and thrown exceptions, as values. */
module Wrappers {

  /** A Java reference that may be null: `None` is null. */
  datatype Option<+T> = None | Some(value: T) {
    function GetOr(default: T): T {
      match this
      case Some(v) => v
      case None => default
    }
  }

  /** The value an operation returns, or the exception it throws. */
  datatype Result<+R, +E> = Success(value: R) | Failure(error: E)
}
