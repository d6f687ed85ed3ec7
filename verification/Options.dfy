/** An optional value: a Go pointer that may be nil, or a result that may be an error. */
module Options {
  datatype Option<+T> = None | Some(value: T)
}
