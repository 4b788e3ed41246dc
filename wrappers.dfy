/** The Some/None datatype used where the scripts return `None` or find no match. */
module Wrappers {

  datatype Option<+T> = None | Some(value: T) {

    /** True if None; lets `:-` propagate a failed step of a matcher. */
    predicate IsFailure() {
      None?
    }

    function PropagateFailure<U>(): Option<U>
      requires None?
    {
      None
    }

    function Extract(): T
      requires Some?
    {
      value
    }
  }
}
