/** Optional values: JavaScript's `null`/`undefined` (or a missing object) on one side, a value on the other. */
module Wrappers {

  datatype Option<+T> = None | Some(value: T)
}
