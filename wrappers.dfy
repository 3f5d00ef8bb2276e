/** Optional values and results with an error payload, used across the model. */
module Wrappers {

  datatype Option<+T> = None | Some(value: T) {
    /** Swift's `x ?? default`. */
    function GetOr(default: T): (r: T)
      ensures Some? ==> r == value
      ensures None? ==> r == default
    {
      match this
      case Some(v) => v
      case None => default
    }
  }

  datatype Result<+T, +E> = Ok(value: T) | Err(error: E)
}
