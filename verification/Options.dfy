/** The absent-or-present value the C source spells with NULL, zero or a status code. */
module Options {

  datatype Option<+T> = None | Some(value: T)
}
