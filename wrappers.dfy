/** Optional values: JavaScript's `undefined` / a missing key, Python's "no match". */
module Wrappers {

  datatype Option<+T> = None | Some(value: T)
}
