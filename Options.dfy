/** The optional values that Swift writes as `T?`. */
module Options {
  datatype Option<+T> = None | Some(value: T)
}
