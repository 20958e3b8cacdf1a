/** Optional values, standing in for the source's nullable pointers. */
module Wrappers {

  /** `None` models a null pointer, `Some(v)` a pointer to `v`. */
  datatype Option<+T> = None | Some(value: T)
}
