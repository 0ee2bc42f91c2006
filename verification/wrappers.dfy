/** The optional result of a pull: Python's `None` or a task. */
module Wrappers {

  datatype Option<+T> = None | Some(value: T)
}
