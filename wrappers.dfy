/** Option and the outcome of a call that may throw. */
module Wrappers {

  datatype Option<+T> = None | Some(value: T) {
    function GetOr(default: T): T {
      match this
      case Some(v) => v
      case None => default
    }
  }

  /** The result of a JavaScript call that either returns a value or throws. */
  datatype Fallible<+T> = Ok(value: T) | Threw
}
