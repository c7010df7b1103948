/** Optional values, results and the errors a caller of the framework can receive. */
module Outcomes {

  datatype Option<+T> = None | Some(value: T)

  /** The error values of both `error.rs` files, plus the two ways a run of the code can stop
      short: the stream or reader ends, or a conversion panics. */
  datatype Error =
    | Eof
    | Panic
    | NotConnect
    | NetError
    | SerialHave
    | SerialClose(serial: int)
    | SerialTimeOut(timedOut: int)
    | TokenDisconnect(sessionId: int)
    | CallError(id: int, msg: seq<int>)
    | IndexError
    | DecodeError
    | ControllerError(text: seq<int>)

  datatype Result<+T> = Ok(value: T) | Err(error: Error) {
    predicate IsFailure() {
      Err?
    }

    function PropagateFailure<U>(): Result<U>
      requires Err?
    {
      Err(error)
    }

    function Extract(): T
      requires Ok?
    {
      value
    }
  }
}
