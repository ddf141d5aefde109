/** Optional values, standing in for Go's nil pointers and nil slices. */
module Wrappers {

  datatype Option<+T> = None | Some(value: T)
}
