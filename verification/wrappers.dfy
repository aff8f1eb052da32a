/** The optional-value datatype the model uses wherever an episode can fail
    to finish because its stream of directions ran out. */
module Wrappers {

  datatype Option<+T> = None | Some(value: T)
}
