/** The optional-value datatype the model uses for Python's `Optional[...]` and for
    arguments that may be `None`. */
module Wrappers {

  datatype Option<+T> = None | Some(value: T)
}
