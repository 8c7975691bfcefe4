/** Failure-carrying values used in place of the exceptions and nullable results of the system. */
module Wrappers {

  /** A value that may be absent; stands for a nullable reference. */
  datatype Option<+T> = None | Some(value: T)

  /** Either a value or the error that was thrown instead of producing it. */
  datatype Result<+T, +E> = Ok(value: T) | Err(error: E)

  /** Success without a value, or the error that was thrown. */
  datatype Outcome<+E> = Pass | Fail(error: E)
}
