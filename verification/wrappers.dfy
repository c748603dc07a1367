/** Option and Result datatypes shared by the provisioner modules. */
module Wrappers {

  /** A value that may be absent; `None` stands for JavaScript's `undefined`. */
  datatype Option<+T> = None | Some(value: T)

  /** The outcome of an operation that can fail with an error message. */
  datatype Result<+R, +E> = Success(value: R) | Failure(error: E)
}
