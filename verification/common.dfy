/** Value types shared by every module of the model. */
module Common {

  /** A value that may be absent: Go's nil, or a missing map entry. */
  datatype Option<T> = None | Some(value: T)
}
