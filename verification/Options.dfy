/** The optional value every module of this project shares. */
module Options {
  datatype Option<+T> = None | Some(value: T)
}
