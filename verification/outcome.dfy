/** Results of operations that can fail, and values that may be missing. */
module Outcome {

  datatype Option<+T> = None | Some(value: T)

  datatype Result<+T, +E> = Success(value: T) | Failure(error: E)

  /** How a statement fares: it takes effect, it takes effect but an error is reported, or it fails. */
  datatype Fate = Done | Unheard | Undone
}
