/** The optional value used wherever the source has `undefined`/`null`/`None`. */
module Options {
  datatype Option<T> = None | Some(value: T)
}
