/** Optional values, used for nullable pointers (parent links, lookups, allocations). */
module Wrappers {
  datatype Option<+T> = None | Some(value: T)
}
