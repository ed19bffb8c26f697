/** Optional values and results with an error, used wherever the source has
    `undefined`, a rejected promise or a caught exception. */
module Wrappers {

  /** A value that may be absent (`undefined` in the source). */
  datatype Option<+T> = None | Some(value: T) {

    /** The value when present, otherwise `default` (the source's `x ?? default`). */
    function GetOr(default: T): T {
      match this
      case Some(v) => v
      case None => default
    }
  }

  /** The outcome of a step that may throw: a value or the reason it failed. */
  datatype Result<+T, +E> = Ok(value: T) | Err(error: E)
}
