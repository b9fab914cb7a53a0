/** Option and Result, the shapes every operation of the model returns. */
module Wrappers {

  /** A value that may be missing: JavaScript's `null`/`undefined` results. */
  datatype Option<+T> = None | Some(value: T) {
    function GetOr(default: T): T {
      match this
      case Some(v) => v
      case None => default
    }
  }

  /** `Err(message)` stands for an exception the source throws. */
  datatype Result<+T> = Ok(value: T) | Err(message: string)
}
