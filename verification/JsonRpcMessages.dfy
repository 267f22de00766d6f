/** JSON-RPC values as far as the transports look into them; everything else is JSON text. */
module JsonRpcMessages {
  import opened Prelude
  import opened PendingRequests

  /** An `id` or `requestId` after `Number(...)`: missing or null, a whole number, or nothing a request can have. */
  datatype RpcId = Missing | Numeric(n: int) | Unusable

  datatype CancelParams = CancelParams(requestId: RpcId, reason: Option<string>)

  /** `params` is what a cancellation would find if the params are an object. */
  datatype Message = Message(
    id: RpcId, name: Option<string>, params: Option<CancelParams>, error: Option<string>, result: string)

  datatype Json = Scalar | Batch(items: seq<Json>) | Object(m: Message)

  /** A response settles with its error if it has one, else with its result. */
  function ResponseOutcome(m: Message): Outcome
  {
    if m.error.Some? then Rejected(RpcError(m.error.value)) else Resolved(m.result)
  }
}
