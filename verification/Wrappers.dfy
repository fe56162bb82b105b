/** The two small result types the model uses for JavaScript's `undefined` and for thrown errors. */
module Wrappers {
  datatype Option<+T> = None | Some(value: T)

  /** A call that may throw a RangeError. */
  datatype Outcome<+T> = Ok(value: T) | RangeError
}
