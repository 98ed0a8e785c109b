/** Option and the outcome of Python code that may raise a KeyError. */
module Wrappers {

  datatype Option<+T> = None | Some(value: T) {

    /** The value, or `default` when absent (Python's `dict.get(key, default)`). */
    function GetOr(default: T): T {
      match this
      case Some(v) => v
      case None => default
    }
  }

  /** A value computed by the source, or the KeyError it raises for a missing dictionary key. */
  datatype Result<+T> = Ok(value: T) | KeyError(key: string)
}
