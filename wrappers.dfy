/** Optional values: an absent header, an unset key, an unresolved path. */
module Wrappers {
  datatype Option<+T> = None | Some(value: T)
}
