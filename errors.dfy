/** Failures the data generator can raise, and a result type that carries them.
    Every failure here is an exception the Python code lets propagate: nothing
    is caught or retried, so a failing lookup or draw aborts the whole call. */
module Errors {

  /** The four per-image and per-class tables the label index is joined from,
      and the label index itself (`data_dict`). */
  datatype Table = ImageToClass | ClassToAttributes | ClassToNum | ClassToOnehot | DataDict

  datatype Error =
    /** A dictionary lookup `table[key]` on a missing key (Python's KeyError). */
    | KeyError(table: Table, key: string)
    /** `random.choice` on an empty sequence (Python's IndexError). */
    | EmptySequence
    /** `np.random.randint(low, high)` with `low >= high` (numpy's ValueError). */
    | EmptyRange(low: int, high: int)
    /** Reading `self.<attribute>` before any call has set it (Python's AttributeError). */
    | AttributeError(attribute: string)

  datatype Result<+T> = Ok(value: T) | Err(error: Error) {
    predicate IsFailure() {
      Err?
    }

    function PropagateFailure<U>(): Result<U>
      requires Err?
    {
      Err(error)
    }

    function Extract(): T
      requires Ok?
    {
      value
    }
  }

  /** The outcome of a step that changes state and returns nothing. */
  datatype Outcome = Pass | Fail(error: Error)
}
