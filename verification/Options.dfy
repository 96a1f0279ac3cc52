/** A value that may be nil. */
module Options {
  datatype Option<+T> = None | Some(value: T)
}
