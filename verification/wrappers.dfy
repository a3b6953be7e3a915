/** Option and Result wrappers used throughout the model. */
module Wrappers {

  /** A value that may be absent (a Python `None`, a missing dictionary key). */
  datatype Option<+T> = None | Some(value: T) {

    /** The wrapped value, or `default` when absent (Python's `d.get(k, default)`). */
    function GetOr(default: T): T {
      match this
      case Some(v) => v
      case None => default
    }
  }

  /** Either a value or the exception that a Python call raised instead. */
  datatype Result<+T, +E> = Ok(value: T) | Err(error: E)
}
