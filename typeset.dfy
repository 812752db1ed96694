/**
  The event taxonomy of the node-sse crate (crates/node-sse/src/typeset.rs):
  its own `EventType`, the event data whose payload is either JSON or raw
  bytes, and the classification `From<&EventData> for EventType`.
*/
module Typeset {
  import SseTypes

  /** Event types emitted by a node's SSE port. */
  datatype EventType =
    | ApiVersion
    | BlockAdded
    | Fault
    | FinalitySignature
    | Shutdown
    | SidecarVersion
    | Step
    | TransactionAccepted
    | TransactionExpired
    | TransactionProcessed

  /** A payload in one of the two supported codecs. */
  datatype EventPayload = Json(value: SseTypes.JsonValue) | Binary(bytes: seq<bv8>)

  /** The supported payload codecs. */
  datatype EventPayloadCodec = Json | Binary

  /** Event data associated with an SSE event. */
  datatype EventData =
    | ApiVersion(payload: EventPayload)
    | BlockAdded(payload: EventPayload)
    | Fault(payload: EventPayload)
    | FinalitySignature(payload: EventPayload)
    | Shutdown
    | SidecarVersion(payload: EventPayload)
    | Step(payload: EventPayload)
    | TransactionAccepted(payload: EventPayload)
    | TransactionExpired(payload: EventPayload)
    | TransactionProcessed(payload: EventPayload)
  {
    /** `EventData::event_type`, which defers to the `From` conversion. */
    function EventTypeOf(): EventType
    {
      EventTypeFrom(this)
    }
  }

  /** `From<&EventData> for EventType`. */
  function EventTypeFrom(value: EventData): EventType
  {
    match value
    case ApiVersion(_) => EventType.ApiVersion
    case SidecarVersion(_) => EventType.SidecarVersion
    case BlockAdded(_) => EventType.BlockAdded
    case TransactionAccepted(_) => EventType.TransactionAccepted
    case TransactionProcessed(_) => EventType.TransactionProcessed
    case TransactionExpired(_) => EventType.TransactionExpired
    case Fault(_) => EventType.Fault
    case FinalitySignature(_) => EventType.FinalitySignature
    case Step(_) => EventType.Step
    case Shutdown => EventType.Shutdown
  }

  /** The name of an event type as written in the enum. */
  function EventTypeName(t: EventType): string
  {
    match t
    case ApiVersion => "ApiVersion"
    case BlockAdded => "BlockAdded"
    case Fault => "Fault"
    case FinalitySignature => "FinalitySignature"
    case Shutdown => "Shutdown"
    case SidecarVersion => "SidecarVersion"
    case Step => "Step"
    case TransactionAccepted => "TransactionAccepted"
    case TransactionExpired => "TransactionExpired"
    case TransactionProcessed => "TransactionProcessed"
  }

  /** The name of an event data variant as written in the enum. */
  function VariantName(d: EventData): string
  {
    match d
    case ApiVersion(_) => "ApiVersion"
    case BlockAdded(_) => "BlockAdded"
    case Fault(_) => "Fault"
    case FinalitySignature(_) => "FinalitySignature"
    case Shutdown => "Shutdown"
    case SidecarVersion(_) => "SidecarVersion"
    case Step(_) => "Step"
    case TransactionAccepted(_) => "TransactionAccepted"
    case TransactionExpired(_) => "TransactionExpired"
    case TransactionProcessed(_) => "TransactionProcessed"
  }

  /** The same variant as `d`, carrying payload `p` instead (Shutdown has none and is kept). */
  function WithPayload(d: EventData, p: EventPayload): EventData
  {
    match d
    case ApiVersion(_) => EventData.ApiVersion(p)
    case BlockAdded(_) => EventData.BlockAdded(p)
    case Fault(_) => EventData.Fault(p)
    case FinalitySignature(_) => EventData.FinalitySignature(p)
    case Shutdown => EventData.Shutdown
    case SidecarVersion(_) => EventData.SidecarVersion(p)
    case Step(_) => EventData.Step(p)
    case TransactionAccepted(_) => EventData.TransactionAccepted(p)
    case TransactionExpired(_) => EventData.TransactionExpired(p)
    case TransactionProcessed(_) => EventData.TransactionProcessed(p)
  }

  /** `a` and `b` are built with the same constructor, whatever their payloads. */
  predicate SameVariant(a: EventData, b: EventData)
  {
    if a.Shutdown? || b.Shutdown? then a.Shutdown? && b.Shutdown?
    else WithPayload(a, b.payload) == b
  }

  /** Each variant is classified under the event type of the same name. */
  lemma ConversionKeepsName(d: EventData)
    ensures EventTypeName(EventTypeFrom(d)) == VariantName(d)
  {
  }

  /** `event_type()` and the `From` conversion agree on every value. */
  lemma EventTypeOfIsFrom(d: EventData)
    ensures d.EventTypeOf() == EventTypeFrom(d)
  {
  }

  /** The codec does not matter: JSON and binary payloads of one variant classify alike. */
  lemma CodecDoesNotAffectType(d: EventData, j: SseTypes.JsonValue, b: seq<bv8>)
    ensures EventTypeFrom(WithPayload(d, EventPayload.Json(j))) == EventTypeFrom(WithPayload(d, EventPayload.Binary(b)))
    ensures EventTypeFrom(WithPayload(d, EventPayload.Json(j))) == EventTypeFrom(d)
  {
  }

  /** Every event type is the conversion of some event data (surjectivity). */
  lemma EveryEventTypeIsReached(t: EventType, p: EventPayload)
    ensures exists d :: EventTypeFrom(d) == t
  {
    var d: EventData := match t
      case ApiVersion => EventData.ApiVersion(p)
      case BlockAdded => EventData.BlockAdded(p)
      case Fault => EventData.Fault(p)
      case FinalitySignature => EventData.FinalitySignature(p)
      case Shutdown => EventData.Shutdown
      case SidecarVersion => EventData.SidecarVersion(p)
      case Step => EventData.Step(p)
      case TransactionAccepted => EventData.TransactionAccepted(p)
      case TransactionExpired => EventData.TransactionExpired(p)
      case TransactionProcessed => EventData.TransactionProcessed(p);
    assert EventTypeFrom(d) == t;
  }

  /** Two values get the same type exactly when they are the same variant. */
  lemma SameTypeIffSameVariant(a: EventData, b: EventData)
    ensures EventTypeFrom(a) == EventTypeFrom(b) <==> SameVariant(a, b)
  {
  }
}
