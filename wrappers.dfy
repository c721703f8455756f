/** The optional value used across the model for JavaScript's `null`-able refs. */
module Wrappers {

  datatype Option<+T> = None | Some(value: T)
}
