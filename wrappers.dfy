/** Option and Result values, standing for JavaScript's `null`/`undefined`
    results and for the `{ error, status }` objects the routes return. */
module Wrappers {

  datatype Option<+T> = None | Some(value: T)

  datatype Result<+R, +E> = Success(value: R) | Failure(error: E)
}
