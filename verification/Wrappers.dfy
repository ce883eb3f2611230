/** Optional values, for the pointers that may be NULL. */
module Wrappers {
  datatype Option<+T> = None | Some(value: T)
}
