/** Small failure-compatible wrappers shared by the modules of this project. */
module Wrappers {

  /** A value that may be absent: the model's `null`. */
  datatype Option<+T> = None | Some(value: T)

  /** The outcome of an operation that the source either completes or aborts by throwing. */
  datatype Result<+T> = Ok(value: T) | Err(message: string)
}
