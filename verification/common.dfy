/** Failure-compatible wrappers shared by every module of the model. */
module Common {

  /** A value that may be absent: an omitted keyword argument or a missing dictionary entry. */
  datatype Option<T> = None | Some(value: T) {

    /** The wrapped value, or `default` when there is none. */
    function GetOr(default: T): T {
      match this
      case Some(v) => v
      case None => default
    }
  }

  /** The outcome of an operation that raises in the source: a value or the error it raised. */
  datatype Result<T, E> = Success(value: T) | Failure(error: E)
}
