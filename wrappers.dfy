/** Optional values and results with an error message, as used by the lowering pass. */
module Wrappers {

  datatype Option<+T> = None | Some(value: T)

  /** The outcome of a step that can throw: a value, or the message of the error it raised. */
  datatype Result<+T> = Ok(value: T) | Err(message: string)
}
