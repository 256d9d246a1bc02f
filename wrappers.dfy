/** Optional values, for the closure variables that start out `undefined`. */
module Wrappers {

  datatype Option<+T> = None | Some(value: T)
}
