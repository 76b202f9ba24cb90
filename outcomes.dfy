/** Small value types shared by every module of the model. */
module Outcomes {

  datatype Option<T> = None | Some(value: T) {
    /** The value, or the given default when absent (JavaScript's default parameters on `undefined`). */
    function GetOr(default: T): T {
      match this
      case Some(v) => v
      case None => default
    }
  }

  /** How an awaited call settles: its promise resolves with a value or rejects (the `catch` branch). */
  datatype Settled<T> = Resolved(value: T) | Rejected

  /** JavaScript truthiness of a string: only the empty string is falsy. */
  predicate Truthy(s: string) {
    s != ""
  }
}
