/** Optional values, used where a source object may be absent. */
module Wrappers {
  datatype Option<+T> = None | Some(value: T)
}
