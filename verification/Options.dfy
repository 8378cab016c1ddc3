/** The usual Some/None, in place of a reference or null. */
module Options {
  datatype Option<+T> = None | Some(value: T)
}
