/** Optional values, standing for Swift's `T?` where the value is not an object. */
module Wrappers {

  datatype Option<+T> = None | Some(value: T)
}
