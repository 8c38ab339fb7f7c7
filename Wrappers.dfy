/** Optional values and the outcome of one call to the hosted backend. */
module Wrappers {

  /** A value that may be absent: a TypeScript optional field, `null` or `undefined`. */
  datatype Option<+T> = None | Some(value: T) {

    /** The value, or `default` when absent (the `x || default` / `x ?? default` idiom). */
    function GetOr(default: T): T {
      match this
      case Some(v) => v
      case None => default
    }
  }

  /**
   * What one backend call (table query, storage upload/remove, RPC, auth call) produced:
   * its data, or the error object it returned or threw, with that object's `code` and
   * `message`. The backend itself is not modelled; its outcome is an input.
   */
  datatype Outcome<+T> = Ok(value: T) | Err(code: string, message: string)
}
