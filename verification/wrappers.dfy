/** A minimal optional-value datatype, used where the program has a value or
    nothing (a null pointer, a file that did not open, an absent error). */
module Wrappers {

  datatype Option<+T> = None | Some(value: T)
}
