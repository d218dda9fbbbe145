/** Small result types shared by the whole model. */
module Wrappers {

  /** A value that may be missing: a Python `None` or an absent key. */
  datatype Option<T> = None | Some(value: T)
  {
    function GetOr(default: T): (r: T)
      ensures Some? ==> r == value
      ensures None? ==> r == default
    {
      match this
      case None => default
      case Some(v) => v
    }
  }

  /**
   * What a Python call produces: a returned value, or an exception that
   * escaped it (`error` carries the exception's message).
   */
  datatype Outcome<T> = Ok(value: T) | Raised(error: string)

  /** A computation that either succeeds or fails with a typed error. */
  datatype Result<T, E> = Success(value: T) | Failure(error: E)
}
