/** Optional values, standing in for Python's `None` defaults. */
module Wrappers {
  datatype Option<+T> = None | Some(value: T)
}
