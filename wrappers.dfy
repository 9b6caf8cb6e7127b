/** Option and Result values, standing for JavaScript's `undefined`/`null` and its exceptions. */
module Wrappers {

  datatype Option<+T> = None | Some(value: T) {
    /** The wrapped value, or `default` when there is none (JavaScript's `x ?? default`). */
    function GetOr(default: T): T {
      match this
      case Some(v) => v
      case None => default
    }
  }

  /** The outcome of an operation that the source lets throw an `Error` with a message. */
  datatype Result<+T> = Ok(value: T) | Err(message: string)
}
