/** Optional values; `None` also stands for JavaScript's `null` and `NaN` where noted. */
module Wrappers {
  datatype Option<T> = None | Some(value: T)
}
