/** Optional values: a JavaScript field or result that may be missing (`null`/`undefined`). */
module Wrappers {
  datatype Option<+T> = None | Some(value: T)
}
