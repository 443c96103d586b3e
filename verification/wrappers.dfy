/** Failure-carrying datatypes shared by the rest of the model. */
module Wrappers {

  datatype Option<+T> = None | Some(value: T)

  /** The outcome of a route that can raise: a value, or the reason it raised. */
  datatype Result<+T> = Ok(value: T) | Err(error: string)
}
