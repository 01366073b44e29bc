/** The optional-value datatype the model uses for JavaScript's `null`
    and for absent storage keys. */
module Wrappers {

  datatype Option<+T> = None | Some(value: T)
}
