/** Option and Result, the two failure-carrying shapes the rest of the model uses:
    Option for a JavaScript value that may be `undefined`/`null`, Result for an
    operation that either yields a value or stops with an error. */
module Wrappers {

  datatype Option<+T> = None | Some(value: T) {
    function GetOr(default: T): T {
      match this
      case Some(v) => v
      case None => default
    }
  }

  datatype Result<+T, +E> = Ok(value: T) | Err(error: E)
}
