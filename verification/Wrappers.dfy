/** Optional values and success/failure results shared by every module. */
module Wrappers {

  /** A value that may be missing: JavaScript's null/undefined, Python's None. */
  datatype Option<T> = None | Some(value: T) {

    /** The value, or `default` when it is missing. */
    function GetOr(default: T): (r: T)
      ensures Some? ==> r == value
      ensures None? ==> r == default
    {
      match this
      case Some(v) => v
      case None => default
    }
  }

  /** The outcome of a backend route: its return value or the HTTP error it raises. */
  datatype Result<T, E> = Success(value: T) | Failure(error: E)
}
