/** The usual optional value; the source's `null`, `undefined` and missing rows are all `None`. */
module Options {
  datatype Option<+T> = None | Some(value: T)
}
