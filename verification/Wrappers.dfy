/** A value that may be absent. */
module Wrappers {
  datatype Option<T> = Some(value: T) | None {
    predicate IsFailure() {
      None?
    }

    function PropagateFailure<U>(): Option<U>
      requires IsFailure()
    {
      None
    }

    function Extract(): T
      requires !IsFailure()
    {
      value
    }
  }
}
