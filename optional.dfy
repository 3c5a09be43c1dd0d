/** The optional value that Python expresses with `None`. */
module Optional {

  datatype Option<+T> = None | Some(value: T)
}
