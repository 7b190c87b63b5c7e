/** Optional values: a JSON member that may be absent. */
module Wrappers {
  datatype Option<+T> = None | Some(value: T)
}
