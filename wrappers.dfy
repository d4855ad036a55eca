/** Optional values: the model's stand-in for Go's `(value, ok)` and
    `(value, error)` result pairs. */
module Wrappers {
  datatype Option<T> = None | Some(value: T)
}
