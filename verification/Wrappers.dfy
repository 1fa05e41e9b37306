/** Optional values, as std::optional is used throughout the bridge. */
module Wrappers {
  datatype Option<+T> = None | Some(value: T)
}
