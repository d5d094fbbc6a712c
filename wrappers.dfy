/** Small failure-carrying datatypes shared by the other modules. */
module Wrappers {

  datatype Option<+T> = None | Some(value: T)

  /** The outcome of a Python call that either returns a value or raises;
      a raised failure carries the text `str(e)` of its exception. */
  datatype Attempt<+T> = Returned(value: T) | Raised(error: string)
}
