/** Optional values and failing computations, standing in for `null`/`undefined`
    and thrown errors in the TypeScript sources. */
module Wrappers {

  /** A value that may be absent (`T | null`, `T | undefined`). */
  datatype Option<+T> = None | Some(value: T)

  /** A computation that either yields a value or throws an error with a message. */
  datatype Result<+T> = Ok(value: T) | Err(message: string)
}
