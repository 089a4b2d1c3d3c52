/** Option and Result: the absent value and the error path of the source's Python code. */
module Wrappers {

  /** `None` stands for Python's None; `Some(v)` for a present value. */
  datatype Option<+T> = None | Some(value: T) {
    function GetOr(default: T): T {
      match this
      case Some(v) => v
      case None => default
    }
  }

  /** A computation that either produced a value or raised an error with a message. */
  datatype Result<+T> = Ok(value: T) | Err(message: string)
}
