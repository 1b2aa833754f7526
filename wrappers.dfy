/** Optional values, standing in for NULL pointers. */
module Wrappers {
  datatype Option<+T> = None | Some(value: T)
}
