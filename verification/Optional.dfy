/** An optional value: `None` where the source stores Python's `None`. */
module Optional {
  datatype Option<T> = None | Some(value: T)
}
