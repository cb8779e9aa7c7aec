/** Option and Result, used for the optional fields of request bodies and
    for the error paths of the endpoints. */
module Wrappers {

  datatype Option<+T> = None | Some(value: T)

  datatype Result<+R, +E> = Success(value: R) | Failure(error: E)
}
