/** A value that may be absent, for the source's `string | null` state cells. */
module Optional {
  datatype Option<T> = None | Some(value: T)
}
