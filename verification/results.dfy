/** Outcomes of the logger's operations.  The C# handlers signal failure by
    throwing (an index outside the node list, a missing dictionary key, a
    substring past the end of a string); the model returns `Err` instead. */
module Results {

  /** The two exception kinds the modelled code can raise. */
  datatype Error =
    | NotFound    // KeyNotFoundException from a dictionary lookup
    | OutOfRange  // ArgumentOutOfRangeException from an index, capacity or substring

  /** A value that may be absent, as `TryDequeue`'s `out` parameter with its
      `bool` result. */
  datatype Option<+T> = None | Some(value: T)

  datatype Result<+T> = Ok(value: T) | Err(error: Error) {
    predicate IsFailure() {
      Err?
    }

    function PropagateFailure<U>(): Result<U>
      requires Err?
    {
      Err(error)
    }

    function Extract(): T
      requires Ok?
    {
      value
    }
  }
}
