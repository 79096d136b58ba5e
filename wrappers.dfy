/** Optional values and results of operations that may throw. */
module Wrappers {

  /** A value that may be absent: JavaScript's `null` / `undefined` results. */
  datatype Option<+T> = None | Some(value: T)

  /** The outcome of an operation that either returns or throws; `error` is what was thrown. */
  datatype Result<+T> = Ok(value: T) | Err(error: string)
}
