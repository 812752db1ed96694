/**
  Error values of the SSE clients (src/api/node/sse/error.rs) and the opaque
  failures of the collaborators they wrap: the HTTP client (reqwest), the
  event-stream decoder and the JSON decoder (serde_json).
*/
module SseErrors {

  /** A failure of the HTTP request that opens the feed (a `reqwest::Error`). */
  datatype TransportError = TransportError(detail: string)

  /** A failure reported by the event-stream decoder while reading the feed. */
  datatype StreamFault = StreamFault(detail: string)

  /** A failure of `serde_json::from_str` on a message's data field. */
  datatype DecodeError = DecodeError(detail: string)

  /** The errors of `ClientCore` (the enum `ClientError` of error.rs). */
  datatype ClientError =
    | ConnectionError(transport: TransportError)
    | NotConnected
    | StreamExhausted
    | InvalidHandshake
    | UnexpectedHandshake
    | DeserializationError(decode: DecodeError)
    | NodeShutdown
    | Timeout
    | InvalidCommand
    | CommandSendError
    | ReciverDroppedError
    | CommandRecvError
    | EventHandlerError
    | RegisterEventHanbdlerError
    | ChannelInternalError
    | EventStreamError(fault: StreamFault)
    | NoEventStreamAvailable

  /**
    The errors of `CasperEventClient`. Its enum is not part of this model; these
    are the variants client.rs constructs or reaches through `?`.
  */
  datatype SseError =
    | ConnectionError(transport: TransportError)
    | StreamError(fault: StreamFault)
    | DeserializationError(decode: DecodeError)
    | StreamExhausted
    | InvalidHandshake
    | NotConnected
}
