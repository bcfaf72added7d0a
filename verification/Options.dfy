/** The outcome of looking for something. */
module Options {

  datatype Option<+T> = None | Some(value: T)
}
