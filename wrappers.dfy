/** Option and Result, the two failure-carrying shapes the rest of the model uses. */
module Wrappers {

  datatype Option<+T> = None | Some(value: T) {
    function GetOr(default: T): T {
      match this
      case Some(v) => v
      case None => default
    }
  }

  /** `Err` stands for a Python exception; its payload is the exception's message. */
  datatype Result<+T, +E> = Ok(value: T) | Err(error: E)
}
