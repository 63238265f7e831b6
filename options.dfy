/** The conventional optional value, standing for Kotlin's nullable types. */
module Options {
  datatype Option<T> = None | Some(value: T)
}
