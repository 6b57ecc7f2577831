/** Optional values: a Go nil error or nil interface is `None`. */
module Wrappers {

  datatype Option<+T> = None | Some(value: T)
}
