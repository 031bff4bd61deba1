/** Small failure-carrying datatypes used by the rest of the model. */
module Wrappers {

  /** A value that may be absent: SQL NULL / pandas NaN in a nullable column. */
  datatype Option<+T> = None | Some(value: T)

  /** Success, or failure carrying an error value (a raised exception). */
  datatype Outcome<+E> = Pass | Fail(error: E)
}
