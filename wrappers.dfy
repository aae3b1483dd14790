/** The two shapes the application uses for "may be null" and "returned or threw". */
module Wrappers {

  /** A nullable value: `None` stands for C#'s `null`. */
  datatype Option<+T> = None | Some(value: T) {

    /** C#'s `x ?? fallback`. */
    function GetOr(fallback: T): T {
      match this
      case Some(v) => v
      case None => fallback
    }
  }

  /** The value an operation returned, or the error it raised. */
  datatype Result<+R, +E> = Success(value: R) | Failure(error: E)
}
