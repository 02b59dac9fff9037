/** Optional values, the exceptions a check can raise, and a failure-compatible
    result type standing for "returns a value or raises". */
module Results {

  datatype Option<+T> = None | Some(value: T)

  /** The exceptions the modelled code raises. `CheckException` is the probe
      library's exception with its message; `PlainException` is Python's bare
      `Exception`; the other three are Python's built-in lookup and type errors. */
  datatype Error =
    | CheckException(message: string)
    | PlainException(message: string)
    | KeyError(key: string)
    | TypeError
    | AttributeError

  datatype Result<+T> = Ok(value: T) | Err(error: Error) {
    predicate IsFailure() {
      Err?
    }

    function PropagateFailure<U>(): Result<U>
      requires Err?
    {
      Err(error)
    }

    function Extract(): T
      requires Ok?
    {
      value
    }
  }
}
