/** Option and Result, used for JavaScript's `undefined` and for thrown errors. */
module Wrappers {

  datatype Option<+T> = None | Some(value: T)

  /** `Failure(message)` stands for a rejected promise / thrown `Error` carrying `message`. */
  datatype Result<+R, +E> = Success(value: R) | Failure(error: E)
}
