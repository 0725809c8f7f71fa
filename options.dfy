/** The optional value used for "no such worker" and "no task". */
module Options {
  datatype Option<+T> = None | Some(value: T)
}
