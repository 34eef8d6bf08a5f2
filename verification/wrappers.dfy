/** Outcome types shared by every module: a lookup that may miss, and a
    call that may fail with the message of the error the code throws. */
module Wrappers {

  datatype Option<+T> = None | Some(value: T) {
    function GetOr(default: T): T {
      match this
      case Some(v) => v
      case None => default
    }
  }

  /** `Err(message)` stands for a rejected promise / thrown `Error(message)`. */
  datatype Result<+T> = Ok(value: T) | Err(message: string)
}
