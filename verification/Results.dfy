/** The usual optional and error-carrying results. */
module Results {
  datatype Option<+T> = None | Some(value: T)

  datatype Result<+T, +E> = Ok(value: T) | Err(error: E)
}

/** Names of the parties of one connection. */
module Ids {
  /** The number under which a request was registered: its place in the id counter. */
  type ReqId = nat

  /** One call of Wait. */
  type WaitId = nat
}
