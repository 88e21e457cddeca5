/** Optional values: a storage read that may find no value for its key. */
module Wrappers {
  datatype Option<+T> = None | Some(value: T)
}
