/** Small value wrappers shared by both strategies. */
module Outcomes {

  /** A field that may hold nothing (Python `None`, or an attribute never assigned). */
  datatype Option<T> = None | Some(value: T)

  /** The outcome of one call of a strategy's `next`: a value, or the exception it raises. */
  datatype Result<T, E> = Ok(value: T) | Err(error: E)
}
