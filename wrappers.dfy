/** The one stock datatype the model needs: a value that may be absent (Java's null). */
module Wrappers {
  datatype Option<+T> = None | Some(value: T)
}
