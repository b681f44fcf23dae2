/** The optional value returned where the dashboard's Python code may produce `None`. */
module Wrappers {
  datatype Option<T> = None | Some(value: T)
}
