/** Optional values, used for absent headers and failed searches. */
module Wrappers {

  datatype Option<+T> = None | Some(value: T)
}
