/** The usual Some/None datatype; `None` stands for JavaScript's `undefined` and `null`. */
module Wrappers {
  datatype Option<+T> = None | Some(value: T)
}
