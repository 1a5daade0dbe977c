/** The optional value used where the Python code of `Grader` returns `None`. */
module Wrappers {
  datatype Option<+T> = None | Some(value: T)
}
