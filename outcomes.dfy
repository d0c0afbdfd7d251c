/** Small result types shared by the whole model. */
module Outcomes {
  datatype Option<T> = None | Some(value: T)

  datatype Result<T, E> = Ok(value: T) | Err(error: E)

  /** How a call that may raise ends: it returns normally, or raises an exception carrying a message. */
  datatype Outcome = Success | Raised(message: string)
}
