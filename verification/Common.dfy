/** Failure-carrying results shared by every component. */
module Common {
  datatype Option<+T> = None | Some(value: T)

  datatype Result<+T, +E> = Ok(value: T) | Err(error: E) {
    predicate IsFailure() { Err? }

    function PropagateFailure<U>(): Result<U, E>
      requires Err?
    {
      Err(error)
    }

    function Extract(): T
      requires Ok?
    {
      value
    }
  }

  /** A clock reading: the sources treat a raising, mistyped or non-finite clock as invalid. */
  datatype Reading = Invalid | At(time: real)

  /** Whatever the outside answers. */
  method Answer<T(0)>() returns (x: T) {
    x := *;
  }

  function Min(a: int, b: int): int { if a < b then a else b }
}
