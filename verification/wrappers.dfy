/** A small Option type for Go's "value or nil" results. */
module Wrappers {
  datatype Option<+T> = None | Some(value: T)
}
