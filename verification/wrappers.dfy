/** Optional values: a JavaScript `null`/`undefined` or a failed datastore read. */
module Wrappers {
  datatype Option<+T> = None | Some(value: T)
}
