/** Option and Result datatypes standing for JavaScript's `undefined` and a thrown exception. */
module Wrappers {

  /** `None` stands for JavaScript's `undefined`. */
  datatype Option<+T> = None | Some(value: T)

  /** `Failure` stands for an exception thrown by the JavaScript runtime. */
  datatype Result<+R, +E> = Success(value: R) | Failure(error: E)
}
