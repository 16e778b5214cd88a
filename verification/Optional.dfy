/** A value that may be absent: a nil pointer, a missing member, an answer that says no. */
module Optional {
  datatype Option<T> = None | Some(value: T)
}
