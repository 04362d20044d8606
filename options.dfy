/** The usual optional value, standing for `undefined`/`null` and for "no result". */
module Options {

  datatype Option<+T> = None | Some(value: T)
}
