/** The optional value used wherever the JavaScript code sees `undefined`, `null` or "no result". */
module Options {

  datatype Option<+T> = None | Some(value: T)

}
