/** Optional values: JavaScript's `null` / `undefined` for a field or a slot that may be empty. */
module Wrappers {

  datatype Option<+T> = None | Some(value: T)
}
