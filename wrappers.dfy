/** An optional value, used where the modelled code can throw: `None` stands
    for the exception, `Some` for the value returned. Failure-compatible, so
    `:-` propagates the exception the way JavaScript does. */
module Wrappers {

  datatype Option<+T> = None | Some(value: T) {

    predicate IsFailure() {
      None?
    }

    function PropagateFailure<U>(): Option<U>
      requires None?
    {
      None
    }

    function Extract(): T
      requires Some?
    {
      value
    }
  }
}
