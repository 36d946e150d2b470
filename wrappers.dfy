/** Optional values and results shared by every module of the model. */
module Wrappers {

  /** A value that may be absent (`null`/`undefined` in the original). */
  datatype Option<+T> = None | Some(value: T) {
    function GetOr(default: T): T {
      match this
      case Some(v) => v
      case None => default
    }
  }

  /** The outcome of an operation that can be refused. */
  datatype Result<+T, +E> = Ok(value: T) | Err(error: E)
}
