/** An optional value: a dictionary lookup that may miss, an arg-max over nothing. */
module Options {

  datatype Option<+T> = None | Some(value: T)
}
