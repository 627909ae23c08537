/** Failure-compatible wrappers shared by the model's modules. */
module Wrappers {

  /** An optional value: `None` stands for JavaScript's `undefined`. */
  datatype Option<+T> = None | Some(value: T)

  /** The outcome of an operation that can reject, as a promise of the source can. */
  datatype Result<+R, +E> = Success(value: R) | Failure(error: E)
}
