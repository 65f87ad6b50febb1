/** Option and Result, used for Go's `error` returns and for answers of the chat gateway. */
module Wrappers {

  /** `None` stands for a nil error or an absent value. */
  datatype Option<+T> = None | Some(value: T)

  datatype Result<+T, +E> = Ok(value: T) | Err(error: E)
}
