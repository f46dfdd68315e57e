/** The optional value the model uses for Python's "value or None". */
module Wrappers {

  datatype Option<+T> = None | Some(value: T)
}
