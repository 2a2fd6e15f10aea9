/** Optional values, for the fields and results the screens leave `null` or `undefined`. */
module Wrappers {

  datatype Option<+T> = None | Some(value: T)
}
