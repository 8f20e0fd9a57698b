/** The optional value and the success-or-error result the location model uses. */
module Wrappers {

  /** An optional value: `None` stands for a field left unset (Python `None`). */
  datatype Option<+T> = None | Some(value: T) {

    /** Returns the value in Some, or `default` if None. */
    function GetOr(default: T): (r: T)
      ensures Some? ==> r == value
      ensures None? ==> r == default
    {
      match this
      case Some(v) => v
      case None => default
    }
  }

  /** Either a successfully built value or the error that aborted it. */
  datatype Result<+R, +E> = Success(value: R) | Failure(error: E)
}
