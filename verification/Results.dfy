/** The result of an operation that may abort the process (RELEASE_ASSERT). */
module Results {
  datatype Result<+T> = Done(value: T) | Aborted {
    predicate IsFailure() { Aborted? }

    function PropagateFailure<U>(): Result<U>
      requires Aborted?
    {
      Aborted
    }

    function Extract(): T
      requires Done?
    {
      value
    }
  }
}
