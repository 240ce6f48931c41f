/** Optional values and the outcome of an operation that PHP would end with an exception. */
module Wrappers {

  datatype Option<T> = None | Some(value: T)
  {
    predicate IsSome() { this.Some? }

    function GetOr(default: T): T
    {
      match this
      case None => default
      case Some(v) => v
    }
  }

  /** The PHP exception classes the code base throws, plus the engine's own fatal `Error`. */
  datatype ErrorKind =
    | InvalidArgument   // \InvalidArgumentException
    | Runtime           // \RuntimeException
    | Logic             // \LogicException
    | Generic           // plain \Exception
    | Fatal             // an engine \Error (call on null, failed string conversion, ...)

  datatype Error = Error(kind: ErrorKind, message: string)

  /** The TypeError of a function declared `: string` that returns an unset property. */
  const StringGotNull := "Return value must be of type string, null returned"

  datatype Result<T> = Success(value: T) | Failure(error: Error)
  {
    predicate IsFailure() { this.Failure? }

    function PropagateFailure<U>(): Result<U>
      requires IsFailure()
    {
      Failure(this.error)
    }

    function Extract(): T
      requires !IsFailure()
    {
      this.value
    }
  }

  /** An operation that returns nothing, or throws. */
  datatype Outcome = Done | Fail(error: Error)
  {
    predicate IsFailure() { this.Fail? }

    function PropagateFailure(): Outcome
      requires IsFailure()
    {
      this
    }
  }
}
