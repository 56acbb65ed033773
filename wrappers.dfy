/** Optional values and results with an error, as used across the model. */
module Wrappers {

  /** `None` stands for JavaScript's `null`/`undefined` where a value may be absent. */
  datatype Option<+T> = None | Some(value: T)

  datatype Result<+T, +E> = Ok(value: T) | Err(error: E)
}
