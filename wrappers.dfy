/** Optional values: the model's stand-in for a `nullptr` or "not found" outcome. */
module Wrappers {

  datatype Option<+T> = None | Some(value: T)
}
