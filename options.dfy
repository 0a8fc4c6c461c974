/** The optional value that Python spells as "a value or None". */
module Options {

  datatype Option<+T> = None | Some(value: T)
}
