/** Option and Result: a value that may be absent, and an outcome that may be an error. */
module Wrappers {

  /** Python's `Optional[T]`: `None`, or a value. */
  datatype Option<+T> = None | Some(value: T) {

    /** The carried value, or `default` when there is none. */
    function GetOr(default: T): T {
      match this
      case Some(v) => v
      case None => default
    }
  }

  /** A successful value, or the error that construction raised. */
  datatype Result<+T, +E> = Ok(value: T) | Err(error: E)
}
