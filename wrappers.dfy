/** Option and Result, the two failure-compatible wrappers the model uses. */
module Wrappers {

  /** A value that may be absent, as a key that may be missing from a JSON object. */
  datatype Option<+T> = None | Some(value: T) {

    /** The value, or `default` when absent (the `dict.get(key, default)` idiom). */
    function GetOr(default: T): (r: T)
      ensures Some? ==> r == value
      ensures None? ==> r == default
    {
      match this
      case Some(v) => v
      case None => default
    }
  }

  /** Either a value or an error message. */
  datatype Result<+T> = Ok(value: T) | Err(error: string)
}
