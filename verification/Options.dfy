/** An absent or present value: the model of the pointers that may be NULL. */
module Options {
  datatype Option<+T> = None | Some(value: T)
}
