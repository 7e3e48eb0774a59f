/** Optional values, standing in for `undefined` and `null` in the original program. */
module Wrappers {

  datatype Option<+T> = None | Some(value: T)
}
