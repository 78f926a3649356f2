/** The conventional optional value, used wherever the service stores NULL or None. */
module Options {
  datatype Option<+T> = None | Some(value: T)
}
