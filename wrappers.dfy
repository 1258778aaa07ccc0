/** Optional values and success-or-error results, used for nullable fields and handler answers. */
module Wrappers {

  /** A value that may be absent: an absent (null) field is `None`. */
  datatype Option<+T> = None | Some(value: T) {

    /** The carried value, or `default` when absent. */
    function GetOr(default: T): T {
      match this
      case Some(v) => v
      case None => default
    }
  }

  /** The answer of a handler: a value, or the error kind it raised. */
  datatype Result<+T, +E> = Ok(value: T) | Err(error: E)
}
