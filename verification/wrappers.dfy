/** The optional-value datatype shared by the client and server models: `None`
    stands for JavaScript's `null` (or a missing JSON field) and Python's `None`. */
module Wrappers {

  datatype Option<+T> = None | Some(value: T)
}
