/** Types shared by the other modules. */
module Base {
  datatype Option<+T> = None | Some(value: T)
}
