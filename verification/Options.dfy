/** The optional value used for null pointers, empty closures and missing map entries. */
module Options {
  datatype Option<+T> = None | Some(value: T)
}
