/** The one failure-free optional type shared by every module. */
module Options {
  datatype Option<+T> = None | Some(value: T)
}
