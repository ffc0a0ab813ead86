/**
 * Outcomes of the operations that can fail. The system signals failure by
 * raising Python exceptions; the model returns them as values instead.
 */
module Outcomes {

  /** The exceptions the modelled code raises. */
  datatype Exception =
    | KeyError          // a dictionary lookup of a missing key
    | ValueError        // an explicit `raise ValueError(...)`
    | AttributeError    // an attribute read before it was assigned
    | IndexError        // `[0]` on an empty list
    | TypeError         // an operator applied to values of unrelated types (text compared with a date)
    | IdSpaceExhausted  // every five-digit trade id is taken (see README, "Left out")
    | SystemExit        // `exit()`; it is not an `Exception`, so no `except Exception` stops it

  /** A value, or the exception raised instead of producing it. */
  datatype Result<T> = Ok(value: T) | Err(error: Exception)

  /** A value that may be missing (Python's `None`). */
  datatype Optional<T> = Absent | Present(value: T)
}
