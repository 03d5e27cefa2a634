/** Option and Result values used wherever the source returns None or raises. */
module Wrappers {

  /** A value that may be absent (Python's None). */
  datatype Option<+T> = None | Some(value: T) {
    function GetOr(default: T): T {
      match this
      case Some(v) => v
      case None => default
    }
  }

  /** The outcome of an operation that either succeeds with a value or raises with a message. */
  datatype Result<+T> = Ok(value: T) | Err(msg: string)

  /** The outcome of an operation that succeeds without a value or raises with a message. */
  datatype Outcome = Pass | Fail(msg: string)
}
