/** Optional values: JavaScript's `null` / `undefined` and axios's `err.response?.status`. */
module Wrappers {

  datatype Option<+T> = None | Some(value: T)

}
