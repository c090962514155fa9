/** The optional value used throughout the model where the broker uses `Option`. */
module Wrappers {
  datatype Option<+T> = None | Some(value: T)
}
