/** The usual Some/None wrapper, used for the source's nullable values. */
module Optional {
  datatype Option<+T> = None | Some(value: T)
}
