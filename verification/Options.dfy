/** The conventional optional value, used where the program has `undefined` or `null`. */
module Options {
  datatype Option<+T> = None | Some(value: T)
}
