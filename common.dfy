/** Values shared by every part of the model: optional values, the errors the
    program can raise, and a result type that propagates them with `:-`. */
module Common {

  datatype Option<+T> = None | Some(value: T)

  /** The exceptions the program lets escape. Python raises them; the model returns them. */
  datatype Error =
    | MissingKey(key: string)   // KeyError: a dict (or os.environ) has no such key
    | TypeMismatch              // TypeError: subscripting, len() or iteration on a JSON value of the wrong kind
    | Raised(origin: string)    // an exception raised by an external collaborator (HTTP, JSON decoder, SQS client)

  datatype Result<+T> = Ok(value: T) | Err(error: Error) {
    predicate IsFailure() { Err? }

    function PropagateFailure<U>(): Result<U>
      requires Err?
    {
      Err(error)
    }

    function Extract(): T
      requires Ok?
    {
      value
    }
  }

  function Min(a: int, b: int): int {
    if a <= b then a else b
  }
}
