/** The optional value used throughout the model for C's nullable pointers. */
module Options {
  datatype Option<+T> = None | Some(value: T)
}
