/** The optional value used for results that an external collaborator may fail to produce. */
module Options {

  datatype Option<+T> = None | Some(value: T)
}
