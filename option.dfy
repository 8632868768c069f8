/** An optional value, for lookups that can find nothing. */
module Optional {
  datatype Option<T> = None | Some(value: T)
}
