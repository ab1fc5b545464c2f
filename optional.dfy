/** The optional value used for the connection cache and for optional payload fields. */
module Optional {
  datatype Option<+T> = None | Some(value: T)
}
