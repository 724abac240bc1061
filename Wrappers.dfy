/** Option and Outcome, the two failure-carrying shapes used throughout the model. */
module Wrappers {

  /** `T | null | undefined` in the source. */
  datatype Option<+T> = None | Some(value: T)

  /** A promise that resolves to nothing (`Pass`) or rejects with an `Error` carrying `message`. */
  datatype Outcome = Pass | Fail(message: string)

  /** A promise that resolves to `value` or rejects with an `Error` carrying `message`. */
  datatype Result<+T> = Ok(value: T) | Err(message: string)
}
