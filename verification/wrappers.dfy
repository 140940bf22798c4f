/** An optional value: the source's `undefined` / `null` slots. */
module Wrappers {

  datatype Option<+T> = None | Some(value: T)
}
