/** Optional values, standing for `null`. */
module Wrappers {
  datatype Option<+T> = None | Some(value: T)
}
