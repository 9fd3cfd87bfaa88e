/** Option and Result, used for the source's optional values and error returns. */
module Wrappers {

  datatype Option<+T> = None | Some(value: T) {
    /** The value, or a fallback when absent (the `??` / `|| d` idiom). */
    function GetOr(default: T): T {
      match this
      case Some(v) => v
      case None => default
    }
  }

  datatype Result<+T, +E> = Ok(value: T) | Err(error: E)
}
