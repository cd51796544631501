/** Option and Result, the two failure-carrying shapes the handlers use. */
module Wrappers {

  /** A value that may be absent: `undefined`/`null` in the handlers. */
  datatype Option<+T> = None | Some(value: T)

  /** A handler's `{ success, ... }` reply: `Success` carries the payload, `Failure` the error. */
  datatype Result<+T, +E> = Success(value: T) | Failure(error: E)
}
