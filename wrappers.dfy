/** Option and result values used where the client returns `{ success, ... }` records
    or where a JavaScript value may be null or undefined. */
module Wrappers {

  datatype Option<+T> = None | Some(value: T)

  /** A `{ success: true, ... }` / `{ success: false, error }` reply. */
  datatype Result<+T> = Ok(value: T) | Err(error: string)

  /** A reply that carries no payload on success. */
  datatype Outcome = Pass | Fail(error: string)

  /** What a service call gave back: a `{ success: true }` payload, a `{ success: false, error }`
      refusal, or an exception. */
  datatype Reply<+T> = Succeeded(value: T) | Refused(error: string) | Raised

  /** The error a failed call leaves: the service's own error, or the fixed text when it threw. */
  function ErrorOf<T>(reply: Reply<T>, threwText: string): (e: Option<string>)
    ensures e.None? <==> reply.Succeeded?
    ensures reply.Refused? ==> e == Some(reply.error)
    ensures reply.Raised? ==> e == Some(threwText)
  {
    match reply
    case Succeeded(_) => None
    case Refused(err) => Some(err)
    case Raised => Some(threwText)
  }
}
