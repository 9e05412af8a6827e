/** Optional values: the model's stand-in for std::optional. */
module Wrappers {

  /** Either no value (an unset optional field) or exactly one value. */
  datatype Option<+T> = None | Some(value: T)
}
