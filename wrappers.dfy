/** Option and Result: the "undefined" of a property read and the thrown
    errors of the server, as values. */
module Wrappers {

  datatype Option<+T> = None | Some(value: T)

  datatype Result<+R, +E> = Success(value: R) | Failure(error: E)
}
