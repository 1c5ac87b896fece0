/** Optional values and success-or-error results shared by the other modules. */
module Wrappers {

  /** A value that may be absent; stands for Python's `None` or a value. */
  datatype Option<+T> = None | Some(value: T)

  /** The outcome of a call that may raise: a value, or the text of the exception. */
  datatype Result<+T> = Ok(value: T) | Err(message: string)
}
