/** Option and Result values for the model's "undefined" and thrown-error paths. */
module Wrappers {

  /** A value that may be absent: JavaScript's `undefined`, Python's `None`. */
  datatype Option<+T> = None | Some(value: T) {
    function GetOr(default: T): T {
      match this
      case Some(v) => v
      case None => default
    }
  }

  /** The outcome of an operation that either returns a value or throws an error. */
  datatype Result<+R, +E> = Ok(value: R) | Err(error: E)
}
