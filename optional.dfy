/** The optional value the URL record uses for absent components
    (a missing fragment, query or port). */
module Optional {

  datatype Option<+T> = None | Some(value: T)
}
