/** An optional value: a prop the caller may leave undefined, or a DOM
    reference that may be null. */
module Optional {
  datatype Option<+T> = None | Some(value: T)
}
