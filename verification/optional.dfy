/** A value that may be absent: JavaScript's `undefined` for fields that hold
    an object, an index or a string. */
module Optional {

  datatype Option<+T> = None | Some(value: T)
}
