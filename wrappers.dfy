/** Optional-value and result datatypes shared by the other modules. */
module Wrappers {

  /** A value that may be absent: `null` or `undefined` on the JavaScript side. */
  datatype Option<+T> = None | Some(value: T) {
    function GetOr(default: T): T {
      match this
      case Some(v) => v
      case None => default
    }
  }

  /** Either a value or the error that was thrown (or rejected) instead. */
  datatype Result<+T, +E> = Ok(value: T) | Err(error: E)
}
