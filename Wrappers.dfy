/** Optional values: a file input that may hold no file, a callback that may carry no user,
    a backend reply that may be a failure. */
module Wrappers {

  datatype Option<+T> = None | Some(value: T)
}
