/** Helper datatypes shared by the modules of this model. */
module Wrappers {

  /** An optional value: a registry key that could not be opened,
      a command line that does not parse. */
  datatype Option<+T> = None | Some(value: T)
}
