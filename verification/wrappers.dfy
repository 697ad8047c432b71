/** Ruby's nil-or-value, as an explicit datatype. */
module Wrappers {

  datatype Option<+T> = None | Some(value: T)
}
