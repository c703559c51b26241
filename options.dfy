/** The optional value used wherever the console may or may not have something. */
module Options {

  datatype Option<+T> = None | Some(value: T)
}
