/** Option and Result values shared by the modules of this model. */
module Wrappers {

  /** An optional value; also stands for a JavaScript field or value that is absent (undefined or null). */
  datatype Option<+T> = None | Some(value: T)

  /** The outcome of an operation that can fail: a settled promise or a thrown exception. */
  datatype Result<+T, +E> = Success(value: T) | Failure(error: E)
}
