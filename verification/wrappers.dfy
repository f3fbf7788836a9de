/** Optional values and fallible results shared by every module of the model. */
module Wrappers {

  /** A value that may be missing (JavaScript `undefined` or `null`). */
  datatype Option<+T> = None | Some(value: T)

  /** The outcome of an operation that may throw: the thrown `Error` carries its message. */
  datatype Result<+T> = Ok(value: T) | Err(error: string)

  /** An operation over a store: its outcome and the store it leaves (changed even on some failures). */
  datatype Step<+T, +S> = Step(result: Result<T>, state: S)
}
