/** The success-or-error value returned by every fallible network operation. */
module Wrappers {

  datatype Result<+T, +E> = Ok(value: T) | Err(error: E)

}
