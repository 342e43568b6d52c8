/** Optional values: `undefined`/`null`/`NaN` results of the source become `None`. */
module Wrappers {
  datatype Option<+T> = None | Some(value: T)
}
