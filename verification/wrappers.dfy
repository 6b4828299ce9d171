/** The optional value used wherever the source has `None`, a missing key or `undefined`,
    and the result type used where the source raises an exception to its caller. */
module Wrappers {

  datatype Option<+T> = None | Some(value: T)

  datatype Result<+R, +E> = Success(value: R) | Failure(error: E)
}
