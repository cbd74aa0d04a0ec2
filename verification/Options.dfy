/** The optional value used wherever the program stores a nullable column or an empty identifier. */
module Options {
  datatype Option<+T> = None | Some(value: T)
}
