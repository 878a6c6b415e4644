/** Optional values and error-carrying results, used wherever the Python code
    reads a key that may be absent or raises an exception. */
module Wrappers {

  datatype Option<+T> = None | Some(value: T) {
    /** `d.get(key, default)`: the value when present, the default otherwise. */
    function GetOr(default: T): T {
      match this
      case Some(v) => v
      case None => default
    }
  }

  /** A node either returns a value or raises; `Err` carries what it raised. */
  datatype Result<+T, +E> = Ok(value: T) | Err(error: E)
}
