/** Optional values: the `null | ...` unions of the store stand for these. */
module Wrappers {

  datatype Option<+T> = None | Some(value: T)
}
