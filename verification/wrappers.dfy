/** An optional value: `Some(value)` when there is an answer, `None` otherwise. */
module Wrappers {

  datatype Option<+T> = None | Some(value: T)
}
