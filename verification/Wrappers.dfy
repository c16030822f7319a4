/** Optional values and results, shared by every module. */
module Wrappers {

  datatype Option<+T> = None | Some(value: T)

  /** The outcome of an operation that the agent reports as (value, error). */
  datatype Result<+T> = Ok(value: T) | Err(reason: string)
}
