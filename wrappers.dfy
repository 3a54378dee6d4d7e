/** Optional values: used for the persisted profile slot and for results of reading an exported card. */
module Wrappers {
  datatype Option<+T> = None | Some(value: T)
}
