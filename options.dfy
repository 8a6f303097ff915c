/** The absent-or-present value the source spells as `None` or a value. */
module Options {
  datatype Option<+T> = None | Some(value: T)
}
