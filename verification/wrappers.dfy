/** Optional values and error outcomes used by the planning model. */
module Wrappers {

  /** A value that may be absent (a missing column, a missing key). */
  datatype Option<+T> = None | Some(value: T) {

    /** The wrapped value, or `default` when there is none. */
    function GetOr(default: T): (r: T)
      ensures Some? ==> r == value
      ensures None? ==> r == default
    {
      match this
      case Some(v) => v
      case None => default
    }
  }

  /** The outcome of an operation that raises an exception in the source. */
  datatype Result<+R, +E> = Success(value: R) | Failure(error: E)
}
