/** Optional values. */
module Wrappers {
  datatype Option<+V> = None | Some(value: V)
}
