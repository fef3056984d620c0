/** Optional values and error-carrying results, standing for Python's
    `None` and for a raised exception whose text `str(e)` is kept. */
module Wrappers {

  datatype Option<+T> = None | Some(value: T) {
    function GetOr(default: T): T {
      match this
      case Some(v) => v
      case None => default
    }
  }

  /** `Err(msg)` is an exception that was raised, `msg` its text. */
  datatype Result<+T> = Ok(value: T) | Err(msg: string)
}
