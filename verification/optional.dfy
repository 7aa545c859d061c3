/** An optional value: the model of a JavaScript value that may be `undefined`. */
module Optional {

  datatype Option<+T> = None | Some(value: T)
}
