/** The optional value used for the winner field and for a sowing run that
    runs out of fuel. */
module Wrappers {

  datatype Option<+T> = None | Some(value: T)
}
