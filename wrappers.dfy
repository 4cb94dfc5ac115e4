/** Option and Result, the two shapes the front end's "null or value" and
    "value or thrown error" returns take in this model. */
module Wrappers {

  datatype Option<+T> = None | Some(value: T)

  /** A computation that either produces a value or fails with the message
      of the error it would have thrown. */
  datatype Result<+T> = Success(value: T) | Failure(message: string)
}
