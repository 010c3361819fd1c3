/** Optional values and results with an error value, used for the nullable
    fields and the thrown errors of the task board. */
module Wrappers {

  /** A nullable or missing (`undefined`) value. */
  datatype Option<+T> = None | Some(value: T)

  /** The outcome of an operation that can throw. */
  datatype Result<+T, +E> = Success(value: T) | Failure(error: E)
}
