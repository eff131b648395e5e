/** The optional values that the broker's Python code spells `None`. */
module Options {
  datatype Option<+T> = None | Some(value: T)
}
