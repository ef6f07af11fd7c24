/** Optional values and error results, for the source's `null`, `undefined` and thrown errors, and `Ceil`. */
module Wrappers {
  datatype Option<+T> = None | Some(value: T)

  datatype Result<+T, +E> = Ok(value: T) | Err(error: E)

  /** The least integer not below `x`. */
  function Ceil(x: real): int {
    -((-x).Floor)
  }
}
