/** The optional value used throughout the model: JavaScript's `null`/`undefined`
    versus a present value. */
module Optional {
  datatype Option<+T> = None | Some(value: T)
}
