/** Optional values: the model's stand-in for Swift's `Optional`. */
module Wrappers {
  datatype Option<+T> = None | Some(value: T)
}
