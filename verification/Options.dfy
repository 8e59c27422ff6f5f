/** A value that may be absent: the firmware's null pointers and -1 sentinels. */
module Options {
  datatype Option<T> = None | Some(value: T)
}
