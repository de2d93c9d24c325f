/** Option and Result values shared by the modules of this model. */
module Wrappers {
  datatype Option<+T> = None | Some(value: T)

  datatype Result<+T, +E> = Success(value: T) | Failure(error: E)
}
