/** Small failure-carrying datatypes shared by the model. */
module Wrappers {

  /** A value that may be absent (JavaScript's `undefined`/`null`, or a NaN parse). */
  datatype Option<+T> = None | Some(value: T)

  /** An operation that either yields a value or fails (a rejected promise). */
  datatype Result<+T> = Success(value: T) | Failure
}
