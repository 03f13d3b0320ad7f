/** Small failure-carrying datatypes shared by the model. */
module Wrappers {

  /** A JavaScript value that may be `undefined`/`null`. */
  datatype Option<+T> = None | Some(value: T) {
    function GetOr(default: T): T {
      match this
      case Some(v) => v
      case None => default
    }
  }

  /** The outcome of an awaited call that may throw: the value it
      resolved to, or the message of the error it threw. */
  datatype Attempt<+T> = Done(value: T) | Threw(message: string)
}
