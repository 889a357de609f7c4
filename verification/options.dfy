/** A value that may be absent: Go's nil pointer, nil error or "no value yet". */
module Options {

  datatype Option<+T> = None | Some(value: T)
}
