/** Optional values and success/failure results, standing in for `undefined`
    and thrown errors in the modelled handler. */
module Wrappers {

  /** `None` models an absent (`undefined`) property. */
  datatype Option<+T> = None | Some(value: T) {

    /** The value, or `default` when absent (a JavaScript default parameter). */
    function GetOr(default: T): T {
      match this
      case Some(v) => v
      case None => default
    }
  }

  /** Either a value or the error that would have been thrown. */
  datatype Result<+R, +E> = Success(value: R) | Failure(error: E)
}
