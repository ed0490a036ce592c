/** Optional values: JavaScript's `undefined`/`null` and absent form fields. */
module Wrappers {

  datatype Option<T> = None | Some(value: T)
}
