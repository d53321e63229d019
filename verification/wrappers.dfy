/** Optional values: an attribute of a render array that may be unset. */
module Wrappers {

  /** `None` stands for a key PHP's `isset` reports as missing. */
  datatype Option<+T> = None | Some(value: T)
}
