/** Optional values and results with an error, used across the model. */
module Wrappers {

  /** `None` stands for JavaScript's `undefined` where a property is read. */
  datatype Option<+T> = None | Some(value: T)

  /** A computation that either produced a value or threw. */
  datatype Result<+T, +E> = Ok(value: T) | Err(error: E)
}
