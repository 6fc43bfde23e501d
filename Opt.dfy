/** An optional value: JavaScript's `undefined` (or a missing entry) versus a present one. */
module Opt {
  datatype Option<T> = None | Some(value: T)
}
