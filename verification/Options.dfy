/** The optional value: Go's nil pointers and its "value, ok" results. */
module Options {
  datatype Option<+T> = None | Some(value: T)
}
