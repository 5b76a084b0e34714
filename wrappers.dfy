/** Option and Outcome, the value-level stand-ins for JavaScript's null and for a promise that rejects. */
module Wrappers {

  /** A value that may be absent (JavaScript `null` or `undefined`). */
  datatype Option<+T> = None | Some(value: T) {
    function GetOr(default: T): T {
      match this
      case Some(v) => v
      case None => default
    }
  }

  /** The settled state of a promise that resolves to `undefined`: it either passes or rejects with an error. */
  datatype Outcome<+E> = Pass | Fail(error: E)
}
