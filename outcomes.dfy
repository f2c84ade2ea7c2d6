/** Optional values (C# null) and the outcome of an operation that may throw. */
module Outcomes {

  /** The message of the ArgumentNullException a LINQ operator throws for a null source. */
  const NullSourceMessage: string := "Value cannot be null. (Parameter 'source')"

  /** A C# reference or nullable value: None stands for null. */
  datatype Option<+T> = None | Some(value: T) {
    function GetOr(default: T): T {
      match this
      case Some(v) => v
      case None => default
    }
  }

  /**
   * The result of a call that may throw: it returns a value, or throws
   * OperationCanceledException (Cancelled), or throws any other exception
   * (Error, carrying the exception's message).
   */
  datatype Outcome<+T> = Ok(value: T) | Cancelled | Error(message: string) {
    predicate IsFailure() {
      !Ok?
    }

    /** Re-throws the same exception from a caller with a different result type. */
    function PropagateFailure<U>(): (r: Outcome<U>)
      requires IsFailure()
      ensures r.Cancelled? == Cancelled?
      ensures r.Error? ==> r.message == message
    {
      if Cancelled? then Cancelled else Error(message)
    }

    function Extract(): T
      requires Ok?
    {
      value
    }
  }
}
