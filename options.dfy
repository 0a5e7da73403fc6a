/** The optional value the application returns as `None` on failure. */
module Options {

  datatype Option<+T> = None | Some(value: T)

}
