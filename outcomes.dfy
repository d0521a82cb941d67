/** Value types shared by the logger model: optional values (JavaScript's
    `undefined`), the three ways a remote Apex call can end, and the way a
    promise settles. */
module Outcomes {

  /** An optional value; `None` stands for JavaScript's `undefined`. */
  datatype Option<+T> = None | Some(value: T)

  /** What calling an imported Apex function does.
      `Returned` : the call returned a promise that fulfils with `value`;
      `RejectedAsync` : the call returned a promise that rejects with `reason`;
      `ThrewSync` : the call itself threw `reason` before returning a promise. */
  datatype RemoteCall<+T> =
    | Returned(value: T)
    | RejectedAsync(reason: string)
    | ThrewSync(reason: string)

  /** Why a promise of the logger rejected. */
  datatype Failure =
    | RemoteFailure(reason: string)   // an Apex call failed and nothing caught it
    | LogLevelOfUndefined             // the TypeError of reading `logLevel` off `undefined`

  /** How an `async` function's promise settles. */
  datatype Settled<+T> = Fulfilled(value: T) | Rejected(failure: Failure)
}
