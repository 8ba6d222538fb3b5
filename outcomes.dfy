/** Results of operations that the original signals with exceptions. */
module Outcomes {

  /** A value, or the message of the exception that replaced it. */
  datatype Result<T> = Ok(value: T) | Err(message: string)

  /** Normal completion, or the message of the exception thrown. */
  datatype Outcome = Pass | Fail(message: string)
}
