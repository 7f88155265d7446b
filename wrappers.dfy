/** Optional values and results with an error message, standing for the
    TypeScript `T | null` returns and for thrown `Error`s. */
module Wrappers {

  datatype Option<+T> = None | Some(value: T)

  datatype Result<+T> = Ok(value: T) | Err(message: string)
}
