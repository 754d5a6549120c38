/** The optional value and the success-or-error outcome shared by every
    module of the model. */
module Wrappers {

  /** A value that may be absent; None stands for the source's null. */
  datatype Option<+T> = None | Some(value: T)

  /** The outcome of a step that can fail with an error of type E. */
  datatype Result<+T, +E> = Success(value: T) | Failure(error: E)
}
