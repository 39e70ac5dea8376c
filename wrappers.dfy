/** Optional values, standing for nullable C pointers and Python's None. */
module Wrappers {
  datatype Option<+T> = None | Some(value: T)
}
