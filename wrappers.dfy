/** Option and Result values: a Java `null` and a thrown exception. */
module Wrappers {

  /** `None` stands for a Java `null`. */
  datatype Option<+T> = None | Some(value: T)

  /** `Err` stands for an exception thrown instead of a value returned. */
  datatype Result<+T, +E> = Ok(value: T) | Err(error: E)
}
