/** An optional value: `None` stands for Go's `nil` pointer. */
module Options {
  datatype Option<T> = None | Some(value: T)
}
