/** Failure-carrying wrappers shared by every module: `Option` stands for a
    nullable or possibly-missing value of the source, `Result` for an
    operation that can reject its input with an error. */
module Wrappers {

  /** A value that may be absent (the source's `null`, `undefined` or `None`). */
  datatype Option<+T> = None | Some(value: T) {

    /** The wrapped value, or `default` when absent. */
    function GetOr(default: T): T {
      match this
      case Some(v) => v
      case None => default
    }
  }

  /** The outcome of an operation that either succeeds with a value or fails
      with an error the caller sees. */
  datatype Result<+T, +E> = Ok(value: T) | Err(error: E)
}
