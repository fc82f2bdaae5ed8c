/** The optional value used wherever the Go code returns a nil-able pointer
    or a nil error. */
module Options {

  datatype Option<+T> = None | Some(value: T)
}
