/** Option and Result: absent JavaScript values and error returns. */
module Wrappers {

  /** `None` stands for a JavaScript `undefined` (or a NaN that every use treats alike). */
  datatype Option<+T> = None | Some(value: T) {
    function GetOr(default: T): T {
      match this
      case Some(v) => v
      case None => default
    }
  }

  /** An operation that either yields a value or fails with a message. */
  datatype Result<+T> = Ok(value: T) | Err(message: string)
}
