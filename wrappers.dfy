/** Optional values: a component's "no result yet" state and a revenue field that did not parse as a number. */
module Wrappers {

  datatype Option<+T> = None | Some(value: T)
}
