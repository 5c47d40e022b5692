/** Option and Result, the two failure-carrying wrappers the model uses
    for Python's `None` and for exceptions that end an operation. */
module Wrappers {

  datatype Option<+T> = None | Some(value: T)

  datatype Result<+T, +E> = Ok(value: T) | Err(error: E)
}
