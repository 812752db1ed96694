/**
  The older SSE client (src/api/node/sse/client.rs): it holds at most one
  decoded stream, checks the handshake on connect, and `wait_for_event` takes
  the stream out of the client and reads it up to the first `BlockAdded`.
*/
module SseClient {
  import opened Wrappers
  import opened SseTypes
  import opened SseErrors
  import opened SseStreams

  const DEFAULT_SSE_SERVER: string := "http://localhost:18101"
  const DEFAULT_EVENT_CHANNEL: string := "/events"

  /** The error `connect` reports for a failed handshake. */
  function ConnectError(e: HandshakeError): SseError
  {
    match e
    case Transport(t) => SseError.ConnectionError(t)
    case Faulted(f) => SseError.StreamError(f)
    case Exhausted => SseError.StreamExhausted
    case Undecodable(d) => SseError.DeserializationError(d)
    case NotApiVersion => SseError.InvalidHandshake
  }

  /** The test `wait_for_event` applies to each decoded event. */
  predicate IsAwaited(d: SseData)
  {
    TypeLabel(d) == "BlockAdded"
  }

  /** An item `wait_for_event` reads past: a decodable event whose label is not `BlockAdded`. */
  predicate Skipped(item: StreamItem)
  {
    item.Next? && FromStr(item.event.data).Success? && !IsAwaited(FromStr(item.event.data).value)
  }

  /**
    What `wait_for_event` returns for a stream whose next unread item is
    `items[pos]`: the first `BlockAdded`, or the first fault or decoding error
    met before it, or `StreamExhausted` when the items run out.
  */
  function Scan(items: seq<StreamItem>, pos: nat): (r: Result<SseData, SseError>)
    requires pos <= |items|
    ensures r.Success? ==> r.value.BlockAdded?
    ensures r == Failure(SseError.StreamExhausted) ==> forall j :: pos <= j < |items| ==> Skipped(items[j])
    decreases |items| - pos
  {
    if pos == |items| then Failure(SseError.StreamExhausted)
    else
      match items[pos]
      case Fault(f) => Failure(StreamError(f))
      case Next(event) =>
        match FromStr(event.data)
        case Failure(e) => Failure(SseError.DeserializationError(e))
        case Success(data) =>
          if IsAwaited(data) then Success(data) else Scan(items, pos + 1)
  }

  /** Skipped items do not change the outcome: the scan answers as it would from the first item not skipped. */
  lemma {:induction false} ScanPassesSkipped(items: seq<StreamItem>, pos: nat, k: nat)
    requires pos <= k <= |items|
    requires forall j :: pos <= j < k ==> Skipped(items[j])
    ensures Scan(items, pos) == Scan(items, k)
    decreases k - pos
  {
    if pos < k {
      ScanPassesSkipped(items, pos + 1, k);
    }
  }

  /** The scan returns the first `BlockAdded`, having read past everything before it. */
  lemma ScanFindsFirstBlockAdded(items: seq<StreamItem>, pos: nat, k: nat, d: SseData)
    requires pos <= k < |items|
    requires forall j :: pos <= j < k ==> Skipped(items[j])
    requires items[k] == Next(Event(Encoded(d))) && d.BlockAdded?
    ensures Scan(items, pos) == Success(d)
  {
    ScanPassesSkipped(items, pos, k);
  }

  /** A fault or an undecodable message before any `BlockAdded` ends the scan with that error. */
  lemma ScanStopsAtError(items: seq<StreamItem>, pos: nat, k: nat)
    requires pos <= k < |items|
    requires forall j :: pos <= j < k ==> Skipped(items[j])
    ensures items[k].Fault? ==> Scan(items, pos) == Failure(StreamError(items[k].fault))
    ensures items[k].Next? && items[k].event.data.Malformed? ==>
      Scan(items, pos) == Failure(SseError.DeserializationError(DecodeError(items[k].event.data.text)))
  {
    ScanPassesSkipped(items, pos, k);
  }

  /** The scan finds something exactly at a stored `BlockAdded` preceded only by skipped items. */
  lemma {:induction false} ScanSuccessIsFirstBlockAdded(items: seq<StreamItem>, pos: nat, d: SseData)
    requires pos <= |items|
    requires Scan(items, pos) == Success(d)
    ensures exists k :: pos <= k < |items| && items[k] == Next(Event(Encoded(d))) &&
                        forall j :: pos <= j < k ==> Skipped(items[j])
    decreases |items| - pos
  {
    if items[pos] == Next(Event(Encoded(d))) {
      assert pos <= pos < |items| && items[pos] == Next(Event(Encoded(d)));
    } else {
      ScanSuccessIsFirstBlockAdded(items, pos + 1, d);
      var k :| pos + 1 <= k < |items| && items[k] == Next(Event(Encoded(d))) &&
               forall j :: pos + 1 <= j < k ==> Skipped(items[j]);
      assert forall j :: pos <= j < k ==> Skipped(items[j]);
    }
  }

  /** The scan runs out of items exactly when every remaining item is skipped. */
  lemma {:induction false} ScanExhaustedIffAllSkipped(items: seq<StreamItem>, pos: nat)
    requires pos <= |items|
    ensures Scan(items, pos) == Failure(SseError.StreamExhausted) <==>
            forall j :: pos <= j < |items| ==> Skipped(items[j])
    decreases |items| - pos
  {
    if pos < |items| {
      ScanExhaustedIffAllSkipped(items, pos + 1);
    }
  }

  /** The handshake and the shutdown notice are read past like any other non-`BlockAdded` event. */
  lemma HandshakeAndShutdownAreSkipped(v: ProtocolVersion)
    ensures Skipped(Next(Event(Encoded(SseData.ApiVersion(v)))))
    ensures Skipped(Next(Event(Encoded(SseData.Shutdown))))
  {
  }

  class CasperEventClient {
    var url: string
    var eventStream: Option<EventStream>

    ghost predicate Valid()
      reads this
    {
      eventStream.Some? ==> eventStream.value.Valid()
    }

    /** `CasperEventClient::default`: the local node's events endpoint, no stream. */
    constructor Default()
      ensures Valid()
      ensures url == DEFAULT_SSE_SERVER + DEFAULT_EVENT_CHANNEL
      ensures url == "http://localhost:18101/events"
      ensures eventStream == None
    {
      url := DEFAULT_SSE_SERVER + DEFAULT_EVENT_CHANNEL;
      eventStream := None;
    }

    /** `CasperEventClient::new`: the given url, no stream. */
    constructor (url: string)
      ensures Valid() && this.url == url && eventStream == None
    {
      this.url := url;
      eventStream := None;
    }

    /**
      `connect`, from the request's outcome on: the stream is stored only when
      the feed opens with `ApiVersion`; on failure nothing changes.
    */
    method Connect(response: Result<seq<StreamItem>, TransportError>) returns (r: Result<(), SseError>)
      requires Valid()
      modifies this
      ensures Valid() && url == old(url)
      ensures r.Success? <==> response.Success? && StartsWithApiVersion(response.value)
      ensures r.Success? ==> eventStream == Some(EventStream(response.value, 1))
      ensures r.Failure? ==> r.error == ConnectError(Handshake(response).error) && eventStream == old(eventStream)
    {
      var outcome := Handshake(response);
      if outcome.Failure? {
        return Failure(ConnectError(outcome.error));
      }
      eventStream := Some(outcome.value);
      r := Success(());
    }

    /**
      `wait_for_event`: take the stream out of the client and read it until the
      first `BlockAdded`. The filter argument is not consulted. The stream is
      never put back, so afterwards the client holds none.
    */
    method WaitForEvent(eventType: EventType) returns (r: Result<SseData, SseError>)
      requires Valid()
      modifies this
      ensures Valid() && url == old(url) && eventStream == None
      ensures old(eventStream).None? ==> r == Failure(SseError.NotConnected)
      ensures old(eventStream).Some? ==> r == Scan(old(eventStream).value.items, old(eventStream).value.pos)
    {
      var taken := eventStream;
      eventStream := None;
      if taken.None? {
        return Failure(SseError.NotConnected);
      }
      var stream := taken.value;
      var pulled, rest := TryNext(stream).0, TryNext(stream).1;
      while pulled.Item?
        invariant stream.Valid() && stream.items == taken.value.items
        invariant (pulled, rest) == TryNext(stream)
        invariant Scan(stream.items, stream.pos) == Scan(taken.value.items, taken.value.pos)
        decreases |stream.items| - stream.pos
      {
        var data := FromStr(pulled.event.data);
        if data.Failure? {
          return Failure(SseError.DeserializationError(data.error));
        }
        if IsAwaited(data.value) {
          return Success(data.value);
        }
        stream := rest;
        pulled, rest := TryNext(stream).0, TryNext(stream).1;
      }
      if pulled.Failed? {
        return Failure(StreamError(pulled.fault));
      }
      r := Failure(SseError.StreamExhausted);
    }
  }
}
