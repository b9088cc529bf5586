/** Option and Result, used wherever the modelled code can fail or a value can be absent. */
module Wrappers {

  datatype Option<+T> = None | Some(value: T)

  /** The outcome of a call that either returns a value or raises with a message. */
  datatype Result<+T> = Success(value: T) | Failure(error: string)

  /** The outcome of a call that returns nothing or raises with a message. */
  datatype Outcome = Pass | Fail(error: string)
}
