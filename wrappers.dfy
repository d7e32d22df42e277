/** Optional values: an absent header, a failed verification. */
module Wrappers {
  datatype Option<+T> = None | Some(value: T)
}
