/** A value that may be absent, as shared by every component. */
module Options {
  datatype Option<+T> = None | Some(value: T)
}
