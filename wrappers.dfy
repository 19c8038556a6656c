/** The Option type used wherever the programs use Python's `None` or JavaScript's `null`. */
module Wrappers {

  datatype Option<+T> = None | Some(value: T)
}
