/** A value that may be absent: the model's stand-in for "no such thing was read". */
module Optional {

  datatype Option<+T> = None | Some(value: T)
}
