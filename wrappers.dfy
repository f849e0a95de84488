/** Option and Result: the shapes used throughout the model for values that
    may be absent (a JavaScript `undefined` field) and for operations that
    either return a value or throw an error. */
module Wrappers {

  datatype Option<+T> = None | Some(value: T)

  datatype Result<+R, +E> = Success(value: R) | Failure(error: E)

}
