/** Optional values and results with an error branch, used wherever the
    application works with `null`/`undefined` or with an operation that throws. */
module Wrappers {

  /** A value that may be absent (`null` or `undefined` in the application). */
  datatype Option<+T> = None | Some(value: T) {

    /** The value, or `default` when absent (the `??` / `||` fallback). */
    function GetOr(default: T): T {
      match this
      case Some(v) => v
      case None => default
    }
  }

  /** The outcome of an operation that either returns a value or throws. */
  datatype Result<+T, +E> = Ok(value: T) | Err(error: E)
}
