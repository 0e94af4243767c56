/** Option and Result types shared by every module of the model. */
module Wrappers {

  /** Python's `None` or a value. */
  datatype Option<+T> = None | Some(value: T) {
    function GetOr(default: T): T {
      match this
      case Some(v) => v
      case None => default
    }
  }

  /** The outcome of an operation that the source can abandon by raising or by an
      early error return; `message` names the Python exception or error. */
  datatype Result<+T> = Ok(value: T) | Err(message: string)

  function Max(a: int, b: int): int { if a < b then b else a }

  function Min(a: int, b: int): int { if a < b then a else b }
}
