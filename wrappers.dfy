/** Optional values and error-or-value results shared by every module. */
module Wrappers {

  /** A value that may be absent: an omitted request field or form field. */
  datatype Option<+T> = None | Some(value: T) {
    /** The carried value, or `default` when absent (a JavaScript default parameter). */
    function GetOr(default: T): T {
      match this
      case Some(v) => v
      case None => default
    }
  }

  /** Either a successful value or an error, for operations that answer with an error response. */
  datatype Result<+R, +E> = Ok(value: R) | Err(error: E)
}
