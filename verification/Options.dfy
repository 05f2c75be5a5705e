/** The result type of lookups that may find nothing. */
module Options {
  datatype Option<+T> = None | Some(value: T)
}
