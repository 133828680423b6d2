/** The optional value shared by the configuration and the importer. */
module Wrappers {

  datatype Option<T> = None | Some(value: T)
}
