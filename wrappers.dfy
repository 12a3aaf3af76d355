/** Optional values: JavaScript's `null` and `undefined` where the model needs them. */
module Wrappers {
  datatype Option<+T> = None | Some(value: T)
}
