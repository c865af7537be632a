/** Optional values: the model's stand-in for JavaScript's `null` and for an unset form field. */
module Wrappers {

  datatype Option<+T> = None | Some(value: T)
}
