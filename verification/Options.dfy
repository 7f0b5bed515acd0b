/** The optional value used where the source returns a pointer, or a value and a bool. */
module Options {
  datatype Option<+T> = None | Some(value: T)
}
