/** Optional values: an absent page element or a string that does not parse. */
module Wrappers {
  datatype Option<+T> = None | Some(value: T)
}
