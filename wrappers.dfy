/** The optional-value datatype the model uses for Go's `error` (None is `nil`)
    and for the failures a test injects into a statement. */
module Wrappers {

  datatype Option<+T> = None | Some(value: T)
}
