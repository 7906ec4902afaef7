/** The optional value used throughout the model for PHP's "null or a value". */
module Wrappers {

  datatype Option<+T> = None | Some(value: T)
}
