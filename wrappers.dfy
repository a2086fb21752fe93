/** Option and Result, used for SQL NULL, absent values and thrown errors. */
module Wrappers {

  datatype Option<+T> = None | Some(value: T)

  /** The outcome of a step that may throw: a value, or the thrown error's description. */
  datatype Result<+R> = Success(value: R) | Failure(error: string)
}
