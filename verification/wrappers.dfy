/** Optional values, as used for lookups and for transactions that may roll back. */
module Wrappers {
  datatype Option<+T> = None | Some(value: T)
}
