/** Optional values: JavaScript's `undefined` for the fields of a pick depth. */
module Wrappers {
  datatype Option<+T> = None | Some(value: T)
}
