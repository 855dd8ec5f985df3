/** Option and Result, the two failure-carrying types the model uses for the
    source's `null`/`undefined` returns and its thrown errors. */
module Wrappers {

  datatype Option<+T> = None | Some(value: T)

  datatype Result<+R, +E> = Success(value: R) | Failure(error: E)
}
