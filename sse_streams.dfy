/**
  The decoded SSE feed as both clients see it. The HTTP request and the
  byte-to-event decoder are outside the model: a connection attempt is given
  as its outcome, a live feed as the sequence of items the decoder will yield,
  and JSON decoding of a message's data field as `FromStr`.
*/
module SseStreams {
  import opened Wrappers
  import opened SseTypes
  import opened SseErrors

  /** A message's data field: the JSON text of some event, or text that does not decode. */
  datatype EventText = Encoded(value: SseData) | Malformed(text: string)

  /** One SSE message (`eventsource_stream::Event`); only its data field is used. */
  datatype Event = Event(data: EventText)

  /** `serde_json::from_str::<SseData>` on a data field. */
  function FromStr(text: EventText): Result<SseData, DecodeError>
  {
    match text
    case Encoded(d) => Success(d)
    case Malformed(t) => Failure(DecodeError(t))
  }

  /** What the decoder yields: the next message, or a fault. */
  datatype StreamItem = Next(event: Event) | Fault(fault: StreamFault)

  /** The answer of `try_next()`: `Ok(Some(event))`, `Ok(None)` or `Err(fault)`. */
  datatype Pulled = Item(event: Event) | EndOfStream | Failed(fault: StreamFault)

  /** A live decoded feed: the items it will yield and how many were already read. */
  datatype EventStream = EventStream(items: seq<StreamItem>, pos: nat)
  {
    ghost predicate Valid()
    {
      pos <= |items|
    }

    /** The items not read yet. */
    function Remaining(): seq<StreamItem>
      requires Valid()
    {
      items[pos..]
    }
  }

  /** One `try_next()`: pull the next item and advance; at the end, report it and stay. */
  function TryNext(s: EventStream): (step: (Pulled, EventStream))
    requires s.Valid()
    ensures step.1.Valid() && step.1.items == s.items
    ensures s.Remaining() == [] ==> step.0 == EndOfStream && step.1 == s
    ensures s.Remaining() != [] ==> step.1.Remaining() == s.Remaining()[1..]
    ensures s.Remaining() != [] ==>
      step.0 == match s.Remaining()[0] case Next(e) => Item(e) case Fault(f) => Failed(f)
  {
    if s.pos == |s.items| then (EndOfStream, s)
    else
      var pulled := match s.items[s.pos] case Next(e) => Item(e) case Fault(f) => Failed(f);
      (pulled, s.(pos := s.pos + 1))
  }

  /** Why opening the feed failed, before it is mapped to a client's own error type. */
  datatype HandshakeError =
    | Transport(transport: TransportError)
    | Faulted(fault: StreamFault)
    | Exhausted
    | Undecodable(decode: DecodeError)
    | NotApiVersion

  /** The feed's first item is a decodable `ApiVersion` event. */
  predicate StartsWithApiVersion(items: seq<StreamItem>)
  {
    |items| > 0 && items[0].Next? && items[0].event.data.Encoded? && items[0].event.data.value.ApiVersion?
  }

  /**
    The handshake both `connect`s perform: send the request, pull the first
    item, decode it, and accept the feed only when that item is `ApiVersion`;
    on success the stream is handed back positioned after the handshake.
  */
  function Handshake(response: Result<seq<StreamItem>, TransportError>): (r: Result<EventStream, HandshakeError>)
    ensures r.Success? <==> response.Success? && StartsWithApiVersion(response.value)
    ensures r.Success? ==> r.value == EventStream(response.value, 1)
    ensures response.Failure? ==> r == Failure(Transport(response.error))
    ensures response.Success? && response.value == [] ==> r == Failure(Exhausted)
    ensures response.Success? && |response.value| > 0 && response.value[0].Next? &&
            response.value[0].event.data.Encoded? && !response.value[0].event.data.value.ApiVersion? ==>
            r == Failure(NotApiVersion)
    ensures response.Success? && |response.value| > 0 && response.value[0].Fault? ==>
            r == Failure(Faulted(response.value[0].fault))
    ensures response.Success? && |response.value| > 0 && response.value[0].Next? &&
            response.value[0].event.data.Malformed? ==>
            r == Failure(Undecodable(DecodeError(response.value[0].event.data.text)))
  {
    match response
    case Failure(e) => Failure(Transport(e))
    case Success(items) =>
      var (first, stream) := TryNext(EventStream(items, 0));
      match first
      case EndOfStream => Failure(Exhausted)
      case Failed(f) => Failure(Faulted(f))
      case Item(event) =>
        match FromStr(event.data)
        case Failure(e) => Failure(Undecodable(e))
        case Success(data) =>
          if data.ApiVersion? then Success(stream) else Failure(NotApiVersion)
  }
}
