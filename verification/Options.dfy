/** The usual optional value, for the error returns of the program. */
module Options {

  datatype Option<+T> = None | Some(value: T)
}
