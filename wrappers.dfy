/** Small failure-carrying datatypes shared by the other modules. */
module Wrappers {

  /** A value that may be absent (JavaScript `undefined`/`null`). */
  datatype Option<+T> = None | Some(value: T)

  /** The outcome of an asynchronous store call: a value, or a thrown error. */
  datatype Result<+T> = Ok(value: T) | Failed
}
