/** A value that may be missing, as a nullable column or an optional argument. */
module Options {
  datatype Option<+T> = None | Some(value: T)
}
