/** An optional value, for the places where the source returns or stores `null`. */
module Options {
  datatype Option<T> = None | Some(value: T)
}
