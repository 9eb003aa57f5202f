/** Optional values, used for dictionary keys that may be absent. */
module Wrappers {

  /** `None` stands for a key that is absent from a Python dictionary. */
  datatype Option<+T> = None | Some(value: T)
}
