/** The optional value used for the engine's absent inputs and for search results. */
module Wrappers {

  datatype Option<+T> = None | Some(value: T)
}
