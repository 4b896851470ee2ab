/** Option and Result: a C# null and a thrown exception, as values. */
module Wrappers {

  /** A value that may be absent (a C# null reference). */
  datatype Option<+T> = None | Some(value: T) {
    /** The value, or `default` when absent (C#'s `??`). */
    function GetOr(default: T): T {
      match this
      case Some(v) => v
      case None => default
    }
  }

  /** Either a value or the exception that was thrown instead. */
  datatype Result<+T, +E> = Success(value: T) | Failure(error: E)
}
