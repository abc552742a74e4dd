/** Option: a value that may be absent (Go's nil interface, or "did not parse"). */
module Wrappers {

  datatype Option<+T> = None | Some(value: T)
}
