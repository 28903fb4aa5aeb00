/** The optional value used throughout the model for PHP's `null`. */
module Wrappers {

  datatype Option<+T> = None | Some(value: T)
}
