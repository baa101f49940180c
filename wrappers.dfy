/** Optional values: a lookup or a decode that may have nothing to give. */
module Wrappers {
  datatype Option<+T> = None | Some(value: T)
}
