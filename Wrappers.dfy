/** Optional values and results with an error code, shared by every module. */
module Wrappers {

  datatype Option<+T> = None | Some(value: T) {
    function GetOr(default: T): T {
      match this
      case Some(v) => v
      case None => default
    }
  }

  /** The outcome of an HTTP endpoint: a value, or the status code of an HTTPException. */
  datatype Result<+T> = Ok(value: T) | Err(status: nat)
}
