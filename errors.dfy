/** Optional values, results and the error kinds the settings store raises. */
module Errors {

  /** A value that may be absent (`undefined` in the source). */
  datatype Option<+T> = None | Some(value: T)

  /** The error kinds: `Errors.InvalidFilePath` from the workflow's error
      utility, and the schema violation that the configuration library
      throws when a value does not satisfy its rule. */
  datatype Error = InvalidFilePath | SchemaValidation

  /** The outcome of an operation that either returns a value or throws. */
  datatype Result<+T> = Ok(value: T) | Err(error: Error)

  /** The outcome of an operation that returns nothing but may throw. */
  datatype Outcome = Pass | Fail(error: Error)
}
