/** Optional values, standing for Python's `Optional[str]`. */
module Wrappers {

  datatype Option<+T> = None | Some(value: T)
}
