/**
  Failure-carrying datatypes shared by the whole model.

  The simulation is written in a language with exceptions; every place where
  it would raise is modelled as an `Err` carrying the kind of exception the
  interpreter would report, so that error paths are results rather than
  preconditions.
 */
module Outcomes {

  /** A value that may be absent (numpy's NaN, or a guarded computation that was skipped). */
  datatype Option<+T> = None | Some(value: T)

  /** Either a value or the exception that interrupted the computation. */
  datatype Result<+T, +E> = Ok(value: T) | Err(error: E) {

    predicate IsFailure() {
      Err?
    }

    function PropagateFailure<U>(): Result<U, E>
      requires Err?
    {
      Err(error)
    }

    function Extract(): T
      requires Ok?
    {
      value
    }
  }

  /** The exceptions the modelled code can raise. */
  datatype Exception =
    | ZeroDivisionError
      /** a list or array subscript outside the container */
    | IndexError(index: int)
      /** looking up a name a module does not define */
    | AttributeError(owner: string, name: string)
      /** subscripting a value that is not a mapping */
    | TypeError(key: string)
      /** adding tensors whose shapes do not agree */
    | ShapeError
      /** an argument of the right type but an unusable value */
    | ValueError(reason: string)
}
