/** Absent values and failures, used where the store answers "not found" or a
    payload fails to parse. */
module Wrappers {

  /** A value that may be absent: `undefined` in the store's API, NULL in its columns. */
  datatype Option<+T> = None | Some(value: T)

  /** A value or the fault that was raised instead of producing it. */
  datatype Result<+T, +E> = Ok(value: T) | Err(error: E)
}
