/** The optional value used wherever a parser may reject its input. */
module Options {

  datatype Option<+T> = None | Some(value: T)

}
