/** The optional value the engine returns where the source returns a Swift optional. */
module Options {

  datatype Option<T> = None | Some(value: T)
}
