/** Option and Result values used by every module of the model in place of
    Go's nil pointers and `(value, error)` pairs. */
module Wrappers {

  /** An optional value: `None` stands for Go's nil or for "not present". */
  datatype Option<+T> = None | Some(value: T) {

    /** The wrapped value, or `default` when there is none. */
    function GetOr(default: T): T {
      match this
      case Some(v) => v
      case None => default
    }
  }

  /** A value or an error, in the shape of Go's `(T, error)` returns. */
  datatype Result<+T, +E> = Ok(value: T) | Err(error: E) {

    /** Forgets the error. */
    function ToOption(): Option<T> {
      match this
      case Ok(v) => Some(v)
      case Err(_) => None
    }
  }
}
