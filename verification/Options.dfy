/** An optional value: an absent row, an unset time, an empty answer. */
module Options {

  datatype Option<T> = None | Some(value: T)
}
