/** A value the source leaves `undefined`. */
module Options {
  datatype Option<+T> = None | Some(value: T)
}
