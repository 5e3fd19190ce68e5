/** The optional value that stands for JavaScript's `null` returns and for an empty timer slot. */
module Options {
  datatype Option<T> = None | Some(value: T)
}
