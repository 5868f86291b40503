/** A value that may be absent: the model of a JavaScript value that is either present or `null`/`undefined`. */
module Optional {
  datatype Option<+T> = None | Some(value: T)
}
