/** Option and Result, the shapes in which the model writes Go's nil pointers and error returns. */
module Wrappers {
  datatype Option<+T> = None | Some(value: T)

  function OrEmpty(s: Option<string>): string {
    if s.Some? then s.value else ""
  }

  datatype Result<+T, +E> = Success(value: T) | Failure(error: E)
}
