/** A value that may be missing: Go's nil and missing map entries. */
module Options {
  datatype Option<+T> = None | Some(value: T)
}
