/** Optional values: None stands for a missing (NaN) cell of the dataset. */
module Wrappers {
  datatype Option<+T> = None | Some(value: T)
}
