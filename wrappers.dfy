/** Optional values, used where the daemon's logic has "no result". */
module Wrappers {
  datatype Option<+T> = None | Some(value: T)
}
