/** Option and Result values standing for Python's `None` defaults and raised exceptions. */
module Wrappers {

  datatype Option<+T> = None | Some(value: T) {
    /** `x.get(key, default)`: the value when present, the default otherwise. */
    function GetOr(default: T): T {
      match this
      case Some(v) => v
      case None => default
    }
  }

  /** A computation that either returns a value or raises an error. */
  datatype Result<+T, +E> = Ok(value: T) | Err(error: E)
}
