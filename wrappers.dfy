/** Failure-compatible result types and the one error vocabulary shared by the model.
    Every Python `raise`, `KeyError`, `IndexError`, `ZeroDivisionError` or `TypeError`
    that the modelled code can reach becomes an `Err` carrying one of these values. */
module Wrappers {

  datatype Option<+T> = None | Some(value: T)

  datatype Error =
    | InvalidNumber(text: string)        // `int(...)` rejects a colon field
    | InvalidDuration(text: string)      // more than four colon fields
    | KeyNotFound(key: string)           // a dict lookup with a missing key
    | PriceNotFound(ticker: string)      // `Market.price` on an unknown ticker
    | RecipeNotFound(id: string)         // a queue item naming no catalog recipe
    | RemoveFailed(ticker: string)       // `_consume_inputs` after a failed `remove`
    | EmptyQueue                         // `queue[0]` / `pop(0)` on an empty list
    | ZeroDivision                       // a division by zero
    | NoneArithmetic                     // arithmetic or comparison with `None`
    | UnknownWorkerType(workerType: string)  // `WORKFORCE.index` on a type it does not list
    | IndexOutOfRange                    // a list index past the end
    | OutOfFuel                          // the recursion bound of the tree builder ran out

  datatype Result<+T> = Ok(value: T) | Err(error: Error) {
    predicate IsFailure() { Err? }

    function PropagateFailure<U>(): Result<U>
      requires Err?
    {
      Err(error)
    }

    function Extract(): T
      requires Ok?
    {
      value
    }
  }
}
