/** Option and Result, shared by the modules of the model. */
module Wrappers {

  /** A value that may be absent: Python's `None` or an actual value. */
  datatype Option<+T> = None | Some(value: T) {

    /** Python's `d.get(k, default)` once the lookup is done. */
    function GetOr(default: T): T
    {
      match this
      case Some(v) => v
      case None => default
    }
  }

  /** The outcome of an operation that either returns or raises. */
  datatype Result<+T, +E> = Success(value: T) | Failure(error: E)
}
