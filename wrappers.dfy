/** Option and Result values used for nullable inputs and error returns. */
module Wrappers {

  /** A value that may be absent (a C# `null`). */
  datatype Option<+T> = None | Some(value: T) {
    /** The value, or `default` when absent (C#'s `??`). */
    function GetOr(default: T): T {
      match this
      case Some(v) => v
      case None => default
    }
  }

  /** The outcome of an operation that may throw. */
  datatype Result<+T, +E> = Ok(value: T) | Err(error: E)
}
