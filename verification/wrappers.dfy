/** The optional value used throughout the model: an absent environment
    variable, a missing extra loader, a minimizer list that is not set. */
module Wrappers {

  datatype Option<+T> = None | Some(value: T)
}
