/** Optional values: a field that may be absent, or an outcome that may be missing. */
module Wrappers {

  datatype Option<+T> = None | Some(value: T)
}
