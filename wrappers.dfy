/** An optional value: JavaScript's `null`/`undefined` versus a present one. */
module Wrappers {

  datatype Option<T> = None | Some(value: T)
}
