/** Optional values, used for the bridge's nullable C pointers. */
module Wrappers {

  /** `None` stands for a null pointer, `Some(v)` for a pointer to `v`. */
  datatype Option<+T> = None | Some(value: T)
}
