/** The optional value that stands for JavaScript's `undefined`-or-present fields. */
module Options {
  datatype Option<+T> = None | Some(value: T)
}
