/** Option and Result, the two wrappers the rest of the model uses for values
    the source may lack (Python's None, JavaScript's null) and for operations
    that may raise. */
module Wrappers {

  datatype Option<+T> = None | Some(value: T)

  datatype Result<+T, +E> = Success(value: T) | Failure(error: E)
}
