/** Failure-compatible results shared by the readers of the project. */
module Wrappers {

  /** `None` stands for a read outside the buffer, or for a value that is not there. */
  datatype Option<+T> = None | Some(value: T) {

    predicate IsFailure() {
      None?
    }

    function PropagateFailure<U>(): Option<U>
      requires None?
    {
      None
    }

    function Extract(): T
      requires Some?
    {
      value
    }
  }
}
