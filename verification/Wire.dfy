/**
  Frames the relay writes to a client. Envelope bytes are opaque to the relay; `serial`
  numbers the routing call that brought the envelope in, so that equal bytes routed
  twice stay distinguishable in statements about order and loss.
 */
module Wire {
  /** What an agent sees in an envelope: a peer's envelope may be of type QUEUE_STATUS, with any int32 count. */
  datatype Body = Status(pending: int) | Other(bytes: string)

  datatype Envelope = Envelope(serial: nat, to: string, body: Body)

  datatype Frame =
    | QueueStatus(pending: nat)
    | QueueFull(recipient: string)
    | RateLimited
    | Relayed(envelope: Envelope)
}
