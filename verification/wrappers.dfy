/** Optional values and results with an error message, as the rest of the model uses them. */
module Wrappers {

  /** A value that may be missing (Python's `None`). */
  datatype Option<+T> = None | Some(value: T)

  /** The result of a step that either produces a value or ends the run with a message. */
  datatype Result<+T> = Ok(value: T) | Err(msg: string)
}
