/** Optional values, used for every outcome that can be missing or fail. */
module Wrappers {

  datatype Option<+T> = None | Some(value: T)
}
