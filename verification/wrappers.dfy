/** Optional values and fallible results.

    A `Result` stands for the outcome of one backend round trip: either the
    decoded payload or the text of the exception it raised (`str(e)`). */
module Wrappers {

  datatype Option<+T> = None | Some(value: T) {

    /** The wrapped value, or `default` when there is none (Python's `dict.get(k, default)`). */
    function GetOr(default: T): T {
      match this
      case Some(v) => v
      case None => default
    }
  }

  datatype Result<+T> = Ok(value: T) | Err(error: string)
}
