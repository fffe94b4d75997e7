/** The usual optional value: JavaScript's `null` for a missing identifier or form. */
module Optional {

  datatype Option<T> = None | Some(value: T)
}
