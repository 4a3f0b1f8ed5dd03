/** Optional values, used for the source's `null` results and for regex matches that may fail. */
module Wrappers {

  datatype Option<+T> = None | Some(value: T)
}
