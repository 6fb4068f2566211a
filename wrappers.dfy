/** The optional value used throughout the model, for the source's `null`,
    `undefined` and Rust's `Option`. */
module Wrappers {
  datatype Option<+T> = None | Some(value: T)
}
