/** Failure-compatible values shared by every module of the model. */
module Wrappers {

  /** A value that may be absent: `undefined`/`null` on the JavaScript side. */
  datatype Option<+T> = None | Some(value: T)

  /** The outcome of a call that either returns `value` or throws an `Error`
      whose `message` is `error`. */
  datatype Result<+T> = Success(value: T) | Failure(error: string)
}
