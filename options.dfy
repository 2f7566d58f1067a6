/** An optional value: the source's `S | null`, and the result of a fuel-bounded computation. */
module Options {
  datatype Option<T> = None | Some(value: T)
}
