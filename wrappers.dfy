/** The optional-value datatype used where the modelled code can fail on malformed input. */
module Wrappers {

  datatype Option<+T> = None | Some(value: T)

}
