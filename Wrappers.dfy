/** Optional values and error-or-value results, standing in for JavaScript's
    `undefined`/`null` and for thrown errors. */
module Wrappers {

  /** A value that may be absent: `undefined` or `null` in the adapter's JSON frames. */
  datatype Option<+T> = None | Some(value: T) {

    /** The value if present, otherwise `fallback`: the behaviour of JavaScript's `??`. */
    function GetOr(fallback: T): T {
      match this
      case Some(v) => v
      case None => fallback
    }
  }

  /** The outcome of an operation that can throw. */
  datatype Result<+T, +E> = Ok(value: T) | Err(error: E)
}
