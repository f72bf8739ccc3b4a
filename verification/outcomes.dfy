/** Optional values and results with an error, used wherever a JavaScript value
    may be `undefined` or an operation may fail. */
module Outcomes {

  /** A value that may be absent: `undefined` in the source (a missing key or
      an omitted argument). */
  datatype Option<+T> = None | Some(value: T) {

    /** The value, or `default` when absent. */
    function GetOr(default: T): T {
      match this
      case Some(v) => v
      case None => default
    }
  }

  /** Either a value or the error that prevented it. */
  datatype Result<+T, +E> = Ok(value: T) | Err(error: E)
}
