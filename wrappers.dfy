/** Optional values: an absent attribute, an unrecognised token, a cleared style property. */
module Wrappers {
  datatype Option<T> = None | Some(value: T)
}
