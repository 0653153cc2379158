/** Optional values, used wherever the Go code has a nil pointer, a nil error
    or a missing map entry. */
module Wrappers {

  datatype Option<+T> = None | Some(value: T)
}
