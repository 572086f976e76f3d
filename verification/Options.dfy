/** The success-or-nothing result used where the source returns an error value. */
module Options {
  datatype Option<+T> = None | Some(value: T)
}
