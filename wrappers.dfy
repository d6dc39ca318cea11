/** The optional value used throughout the model: PHP's `false` returns become None. */
module Wrappers {
  datatype Option<+T> = None | Some(value: T)
}
