/** The optional and fallible values the model replaces `null` and exceptions with. */
module Wrappers {

  datatype Option<+T> = None | Some(value: T) {
    /** `value ?? default`: the carried value, or `default` when there is none. */
    function GetOr(default: T): T {
      match this
      case Some(v) => v
      case None => default
    }
  }

  /** A computation that either returns a value or throws the error `error`. */
  datatype Result<+T, +E> = Ok(value: T) | Err(error: E)
}
