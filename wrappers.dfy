/** Optional values: a JavaScript field or reference that may be undefined or null. */
module Wrappers {

  datatype Option<+T> = None | Some(value: T)

}
