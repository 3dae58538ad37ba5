/** Option and Result, used for JavaScript's `undefined`/`null` and for thrown errors. */
module Wrappers {

  /** `None` stands for a JavaScript value that is `undefined` or `null`. */
  datatype Option<+T> = None | Some(value: T) {
    function GetOr(default: T): T {
      match this
      case Some(v) => v
      case None => default
    }
  }

  /** The outcome of an operation that either returns a value or throws. */
  datatype Result<+T, +E> = Ok(value: T) | Err(error: E)
}
