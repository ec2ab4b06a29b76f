/** An optional value, for what the program returns as None or raises as an exception. */
module Options {

  datatype Option<T> = None | Some(value: T)
}
