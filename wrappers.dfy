/** Optional values and fallible results, used where the program raises an exception. */
module Wrappers {

  datatype Option<+T> = None | Some(value: T)

  /** `Err` carries the message of the exception the program raises. */
  datatype Result<+T> = Ok(value: T) | Err(message: string)
}
