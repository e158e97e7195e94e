/** What both transports share: the life cycle and the server options they read. */
module Transport {
  import opened Packets

  datatype ReadyState = OPENING | OPEN | CLOSING | CLOSED

  datatype RateLimitOptions = RateLimitOptions(maxMessages: nat, windowMs: nat)

  /** The options a session reads. The runtime's byte count is a parameter. */
  datatype Options = Options(
    pingInterval: nat,
    pingTimeout: nat,
    backpressureThreshold: nat,
    rateLimit: Option<RateLimitOptions>,
    byteSize: RawData -> nat)
}
