/** Small failure-carrying datatypes shared by the other modules. */
module Wrappers {

  /** A value that may be missing: JavaScript's `undefined` for an optional field. */
  datatype Option<T> = None | Some(value: T) {
    function GetOr(default: T): T {
      match this
      case Some(v) => v
      case None => default
    }
  }

  /** The result of an operation that returns a value or throws an `Error` with a message. */
  datatype Result<T> = Ok(value: T) | Err(error: string)

  /** The result of an operation that returns nothing or throws. */
  datatype Outcome = Pass | Fail(error: string)
}
