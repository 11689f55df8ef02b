/** Option and result types shared by the whole model. */
module Wrappers {

  /** A value that may be absent (a JavaScript `undefined` or `null`). */
  datatype Option<+T> = None | Some(value: T) {
    function GetOr(default: T): T {
      match this
      case Some(v) => v
      case None => default
    }
  }

  /** The outcome of a call that may throw: a value or the thrown error. */
  datatype Result<+T, +E> = Ok(value: T) | Err(error: E)
}

/** The errors the core raises or passes through. */
module Errors {

  /** `NoWalletConnected` is the one error the core raises itself; every other
      error comes from a collaborator (the encryption backend, the backend
      factory, the ledger transport) and is rethrown as it was received. */
  datatype Error = NoWalletConnected | Thrown(reason: string)

  /** The message of the error the write operations throw without an address. */
  const NoWalletMessage: string := "No wallet connected"

  /** The message an error carries: the core's own text for a missing
      wallet, and the collaborator's message, unchanged, otherwise. */
  function Message(e: Error): (m: string)
    ensures e.NoWalletConnected? ==> m == NoWalletMessage
    ensures e.Thrown? ==> m == e.reason
  {
    match e
    case NoWalletConnected => NoWalletMessage
    case Thrown(reason) => reason
  }
}
