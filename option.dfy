/** An optional value: Go's nil reference or nil error is `None`. */
module Opt {
  datatype Option<T> = None | Some(value: T)
}
