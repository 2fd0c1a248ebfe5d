/** Option and the two ways a Python call can end. */
module Wrappers {

  /** Python's `None` or a value. */
  datatype Option<+T> = None | Some(value: T)

  /** A Python call either returns a value or raises. None of the modelled
      callers catches what it raises, so which exception it is never matters. */
  datatype PyCall<+T> = Returned(value: T) | Raised

  /** The length of a Python slice `xs[:stop]` of a sequence of length `len`. */
  function Min(len: nat, stop: nat): nat
  {
    if len < stop then len else stop
  }
}
