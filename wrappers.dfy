/** Optional values, used for the source's `T | null` results and its optional fields. */
module Wrappers {

  datatype Option<+T> = None | Some(value: T)
}
