/** Optional values, used where a read from a GPU-visible buffer can fall outside it. */
module Wrappers {
  datatype Option<+T> = None | Some(value: T)
}
