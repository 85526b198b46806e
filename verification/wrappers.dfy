/** Optional values: a stored value that may be absent, or the outcome of a call that may fail. */
module Wrappers {

  datatype Option<+T> = None | Some(value: T)
}
