/** Optional values: the `undefined`-able fields of a stored document. */
module Wrappers {
  datatype Option<+T> = None | Some(value: T)
}
