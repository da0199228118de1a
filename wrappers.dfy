/** JavaScript's `null` / `undefined` as an optional value. */
module Wrappers {

  datatype Option<+T> = None | Some(value: T) {

    /** The value, or `default` when absent (JavaScript's `??`). */
    function GetOr(default: T): T {
      match this
      case Some(v) => v
      case None => default
    }
  }

  /** The outcome of an asynchronous thunk: fulfilled with a value or rejected with a message. */
  datatype Settled<+T> = Fulfilled(value: T) | Rejected(message: string)
}
