/** Optional values and results, standing in for JavaScript's `undefined`
    and for the exceptions the client code throws. */
module Wrappers {

  /** A value that may be absent, as a field that is `undefined` in a parsed
      JSON body. */
  datatype Option<+T> = None | Some(value: T) {

    /** The value, or `default` when absent (a destructuring default). */
    function GetOr(default: T): T {
      match this
      case Some(v) => v
      case None => default
    }
  }

  /** The outcome of an operation that may throw: `Err` carries the message
      of the error thrown. */
  datatype Result<+T> = Ok(value: T) | Err(error: string)
}
