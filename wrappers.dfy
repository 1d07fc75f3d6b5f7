/** Optional values, standing for JavaScript's `undefined`, a missing match or `NaN`. */
module Wrappers {
  datatype Option<T> = None | Some(value: T)
}
