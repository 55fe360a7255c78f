/** Option and Result, the plain wrappers for missing values and rejected calls used throughout the model. */
module Wrappers {

  /** A value that may be missing, in place of JavaScript's `null`. */
  datatype Option<+T> = None | Some(value: T)

  /** The outcome of an operation that either resolves with a value or rejects with an error. */
  datatype Result<+T, +E> = Success(value: T) | Failure(error: E) {

    /** The value of a success, `None` for a failure. */
    function ToOption(): Option<T>
    {
      match this
      case Success(v) => Some(v)
      case Failure(_) => None
    }
  }
}
