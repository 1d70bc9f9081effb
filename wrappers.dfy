/** Option and Result values for the model's error paths. */
module Wrappers {

  datatype Option<+T> = None | Some(value: T)

  /** Success carries a value, Failure the error the source reports. */
  datatype Result<+R, +E> = Ok(value: R) | Err(error: E)

  /** A value-less success or failure, as Rust's `Result<(), E>`. */
  datatype Outcome<+E> = Pass | Fail(error: E)
}
