/** The usual optional value: a C pointer that may be NULL, or a lookup that may miss. */
module Options {
  datatype Option<+T> = None | Some(value: T)
}
