/** Small shared value types. */
module Common {

  /** Python's `None` or a present value. */
  datatype Option<+T> = None | Some(value: T)
}
