/** Option and Result values shared by the modules of this model. */
module Wrappers {

  datatype Option<+T> = None | Some(value: T)

  /** Either a value or the error that a Python call would have raised. */
  datatype Result<+R, +E> = Success(value: R) | Failure(error: E)
}
