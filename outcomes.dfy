/** Success/failure values and the error kinds the TigerGraph client can reject with. */
module Outcomes {

  datatype Option<+T> = None | Some(value: T)

  /** A failure-compatible result, usable with `:-`. */
  datatype Result<+T, +E> = Ok(value: T) | Err(error: E) {
    predicate IsFailure() {
      Err?
    }

    function PropagateFailure<U>(): Result<U, E>
      requires Err?
    {
      Err(error)
    }

    function Extract(): T
      requires Ok?
    {
      value
    }
  }

  /** The ways a client call is rejected. */
  datatype Failure =
    | HttpStatus(status: int)      // the response was not ok
    | ServerError(message: string) // the decoded body carried a truthy `error` flag
    | NoVertices                   // an interpreted query produced no node
    | NoEdges                      // an interpreted query produced nodes but no link
    | TypeError(key: string)       // a property was read from null or undefined
}
