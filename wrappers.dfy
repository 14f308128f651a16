/** Small failure-carrying datatypes shared by the other modules. */
module Wrappers {

  /** An optional value: the result of popping from a possibly empty buffer,
      or a key event that may or may not have arrived. */
  datatype Option<T> = None | Some(value: T)

  /** The outcome of one step of a fallible iteration: a value, or an error
      whose text the controller never inspects. */
  datatype Result<T> = Ok(value: T) | Err(message: string)
}
