/**
  The event taxonomy of the SSE client (src/api/node/sse/types.rs): the routing
  key `EventType`, the decoded event `SseData`, its classification, and the
  commands the client core accepts.
*/
module SseTypes {

  /** A `serde_json::Value`; the client never looks inside it. */
  datatype JsonValue = JsonValue(text: string)

  /** The node's protocol version carried by the handshake event. */
  datatype ProtocolVersion = ProtocolVersion(major: nat, minor: nat, patch: nat)

  /** The routing key of the handler registry. */
  datatype EventType =
    | ApiVersion
    | SidecarVersion
    | BlockAdded
    | TransactionAccepted
    | TransactionProcessed
    | TransactionExpired
    | Fault
    | FinalitySignature
    | Step
    | Shutdown

  /** One decoded event of the node's feed. */
  datatype SseData =
    | ApiVersion(version: ProtocolVersion)
    | SidecarVersion(json: JsonValue)
    | BlockAdded(json: JsonValue)
    | TransactionAccepted(json: JsonValue)
    | TransactionProcessed(json: JsonValue)
    | TransactionExpired(json: JsonValue)
    | Fault(json: JsonValue)
    | FinalitySignature(json: JsonValue)
    | Step(json: JsonValue)
    | Shutdown

  /** `SseData::event_type`. */
  function EventTypeOf(d: SseData): EventType
  {
    match d
    case ApiVersion(_) => EventType.ApiVersion
    case SidecarVersion(_) => EventType.SidecarVersion
    case BlockAdded(_) => EventType.BlockAdded
    case TransactionAccepted(_) => EventType.TransactionAccepted
    case TransactionProcessed(_) => EventType.TransactionProcessed
    case TransactionExpired(_) => EventType.TransactionExpired
    case Fault(_) => EventType.Fault
    case FinalitySignature(_) => EventType.FinalitySignature
    case Step(_) => EventType.Step
    case Shutdown => EventType.Shutdown
  }

  /** The name of an event type as written in the enum. */
  function EventTypeName(t: EventType): string
  {
    match t
    case ApiVersion => "ApiVersion"
    case SidecarVersion => "SidecarVersion"
    case BlockAdded => "BlockAdded"
    case TransactionAccepted => "TransactionAccepted"
    case TransactionProcessed => "TransactionProcessed"
    case TransactionExpired => "TransactionExpired"
    case Fault => "Fault"
    case FinalitySignature => "FinalitySignature"
    case Step => "Step"
    case Shutdown => "Shutdown"
  }

  /** `SseData::type_label`: the name of the event's variant. */
  function TypeLabel(d: SseData): string
  {
    match d
    case ApiVersion(_) => "ApiVersion"
    case SidecarVersion(_) => "SidecarVersion"
    case BlockAdded(_) => "BlockAdded"
    case TransactionAccepted(_) => "TransactionAccepted"
    case TransactionProcessed(_) => "TransactionProcessed"
    case TransactionExpired(_) => "TransactionExpired"
    case Fault(_) => "Fault"
    case FinalitySignature(_) => "FinalitySignature"
    case Step(_) => "Step"
    case Shutdown => "Shutdown"
  }

  /** The same variant as `d`, carrying the JSON payload `p` instead (variants without JSON are kept). */
  function WithJson(d: SseData, p: JsonValue): SseData
  {
    match d
    case SidecarVersion(_) => SseData.SidecarVersion(p)
    case BlockAdded(_) => SseData.BlockAdded(p)
    case TransactionAccepted(_) => SseData.TransactionAccepted(p)
    case TransactionProcessed(_) => SseData.TransactionProcessed(p)
    case TransactionExpired(_) => SseData.TransactionExpired(p)
    case Fault(_) => SseData.Fault(p)
    case FinalitySignature(_) => SseData.FinalitySignature(p)
    case Step(_) => SseData.Step(p)
    case _ => d
  }

  /** `a` and `b` are built with the same constructor, whatever their payloads. */
  predicate SameVariant(a: SseData, b: SseData)
  {
    if a.ApiVersion? || b.ApiVersion? then a.ApiVersion? && b.ApiVersion?
    else if a.Shutdown? || b.Shutdown? then a.Shutdown? && b.Shutdown?
    else WithJson(a, b.json) == b
  }

  /** Each variant is classified under the event type of the same name. */
  lemma ClassificationKeepsName(d: SseData)
    ensures EventTypeName(EventTypeOf(d)) == TypeLabel(d)
  {
  }

  /** Every event type is the classification of some event (surjectivity). */
  lemma EveryEventTypeIsReached(t: EventType, p: JsonValue, v: ProtocolVersion)
    ensures exists d :: EventTypeOf(d) == t
  {
    var d: SseData := match t
      case ApiVersion => SseData.ApiVersion(v)
      case SidecarVersion => SseData.SidecarVersion(p)
      case BlockAdded => SseData.BlockAdded(p)
      case TransactionAccepted => SseData.TransactionAccepted(p)
      case TransactionProcessed => SseData.TransactionProcessed(p)
      case TransactionExpired => SseData.TransactionExpired(p)
      case Fault => SseData.Fault(p)
      case FinalitySignature => SseData.FinalitySignature(p)
      case Step => SseData.Step(p)
      case Shutdown => SseData.Shutdown;
    assert EventTypeOf(d) == t;
  }

  /** The classification ignores the payload: replacing it keeps the event type. */
  lemma ClassificationIgnoresPayload(d: SseData, p: JsonValue)
    ensures EventTypeOf(WithJson(d, p)) == EventTypeOf(d)
  {
  }

  /** Two events get the same type exactly when they are the same variant. */
  lemma SameTypeIffSameVariant(a: SseData, b: SseData)
    ensures EventTypeOf(a) == EventTypeOf(b) <==> SameVariant(a, b)
  {
  }

  /** Only the handshake event is of type ApiVersion, only Shutdown of type Shutdown. */
  lemma HandshakeAndShutdownAreSingledOut(d: SseData)
    ensures EventTypeOf(d) == EventType.ApiVersion <==> d.ApiVersion?
    ensures EventTypeOf(d) == EventType.Shutdown <==> d.Shutdown?
  {
  }

  /** A registered callback, known here only by an opaque token. */
  datatype Handler = Handler(token: nat)

  /** `CoreCommand`, without its acknowledgement channel. */
  datatype CoreCommand =
    | Connect
    | AddOnEventHandler(eventType: EventType, handler: Handler)
    | RemoveEventHandler(id: nat)

  /** The value sent back on a command's acknowledgement channel. */
  datatype Ack = Connected | Registered(id: nat) | RemovalResult(removed: bool)

  /** Connect is acknowledged with `()`, AddOnEventHandler with an id, RemoveEventHandler with a bool. */
  predicate AckFits(cmd: CoreCommand, ack: Ack)
  {
    match cmd
    case Connect => ack.Connected?
    case AddOnEventHandler(_, _) => ack.Registered?
    case RemoveEventHandler(_) => ack.RemovalResult?
  }
}
