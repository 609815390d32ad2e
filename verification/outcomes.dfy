/** Small value types shared by every component of the model. */
module Outcomes {

  datatype Option<+T> = None | Some(value: T)

  /** What calling a Python function that returns a bool can do: return a
      value, or raise an exception that the caller may catch. */
  datatype CallOutcome = Returned(value: bool) | Raised {
    /** The call returned True. */
    predicate Succeeded() {
      this == Returned(true)
    }
  }
}
