/** Option and Result values standing in for Python's `None` and for raised exceptions. */
module Wrappers {

  /** A value that may be absent, as a Python `X | None`. */
  datatype Option<T> = None | Some(value: T) {
    /** The value, or `default` when absent (Python's `d.get(k, default)`). */
    function GetOr(default: T): T {
      match this
      case Some(v) => v
      case None => default
    }
  }

  /** The outcome of a step that either returns a value or raises; `error` is `str(e)`. */
  datatype Result<T> = Ok(value: T) | Err(error: string)
}
