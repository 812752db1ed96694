/**
  Client programs replaying the situations exercised by tests/sse_client.rs,
  proved from the operations' contracts alone.
*/
module Scenarios {
  import opened Wrappers
  import opened SseTypes
  import opened SseErrors
  import opened SseStreams
  import opened SseClientCore
  import SseClient

  function Msg(d: SseData): StreamItem
  {
    Next(Event(Encoded(d)))
  }

  function Height(h: string): JsonValue
  {
    JsonValue("{\"height\":" + h + "}")
  }

  /** The feed served by the tests' mock server. */
  function TestFeed(): seq<StreamItem>
  {
    [ Msg(SseData.ApiVersion(ProtocolVersion(2, 0, 0))),
      Msg(SseData.BlockAdded(Height("10"))),
      Msg(SseData.BlockAdded(Height("11"))),
      Msg(SseData.BlockAdded(Height("12"))),
      Msg(SseData.FinalitySignature(JsonValue("\"test\""))),
      Msg(SseData.BlockAdded(Height("13"))),
      Msg(SseData.BlockAdded(Height("14"))) ]
  }

  /**
    A fresh core issues id 0 and then id 1 for two registrations of one type.
    After the first, the type has one handler and the id is indexed; after the
    second, it has two, and both ids are among its keys.
  */
  method AddHandlers() returns (first: nat, countAfterFirst: nat, indexed: bool, second: nat, count: nat,
                                hasFirst: bool, hasSecond: bool)
    ensures first == 0 && second == 1
    ensures countAfterFirst == 1 && indexed
    ensures count == 2 && hasFirst && hasSecond
  {
    var core := new ClientCore("test_url");
    var h := Handler(0);
    RegisterAddsOneHandler(core.CurrentRegistry(), EventType.BlockAdded, h);
    first := core.AddOnEventHandler(EventType.BlockAdded, h);
    countAfterFirst := |core.CurrentRegistry().HandlersFor(EventType.BlockAdded)|;
    indexed := first in core.idTypes;
    RegisterAddsOneHandler(core.CurrentRegistry(), EventType.BlockAdded, h);
    second := core.AddOnEventHandler(EventType.BlockAdded, h);
    count := |core.CurrentRegistry().HandlersFor(EventType.BlockAdded)|;
    hasFirst := first in core.CurrentRegistry().HandlersFor(EventType.BlockAdded);
    hasSecond := second in core.CurrentRegistry().HandlersFor(EventType.BlockAdded);
  }

  /** Removing the second of two registered handlers answers true and leaves one. */
  method RemoveRegisteredHandler() returns (removed: bool, left: nat, stillThere: bool)
    ensures removed && left == 1 && !stillThere
  {
    var core := new ClientCore("test_url");
    var h := Handler(0);
    var id := core.AddOnEventHandler(EventType.BlockAdded, h);
    RegisterAddsOneHandler(core.CurrentRegistry(), EventType.BlockAdded, h);
    id := core.AddOnEventHandler(EventType.BlockAdded, h);
    assert core.CurrentRegistry().HandlersFor(EventType.BlockAdded) == map[0 := h, 1 := h];
    UnregisterTouchesOwnType(core.CurrentRegistry(), id);
    removed := core.RemoveHandler(id);
    left := |core.CurrentRegistry().HandlersFor(EventType.BlockAdded)|;
    stillThere := id in core.CurrentRegistry().HandlersFor(EventType.BlockAdded);
  }

  /** Removing a registered handler answers true; removing the same id again answers false. */
  method RemoveHandlerTwice() returns (removed: bool, removedAgain: bool)
    ensures removed && !removedAgain
  {
    var core := new ClientCore("test_url");
    var id := core.AddOnEventHandler(EventType.BlockAdded, Handler(0));
    var before := core.CurrentRegistry();
    RegisterAddsOneHandler(EmptyRegistry(), EventType.BlockAdded, Handler(0));
    UnregisterDeactivates(before, id);
    removed := core.RemoveHandler(id);
    SecondRemovalFails(before, id);
    removedAgain := core.RemoveHandler(id);
  }

  /** How many of `calls` invoked callback `h`. */
  function CountFor(calls: seq<Call>, h: Handler): nat
  {
    if calls == [] then 0
    else CountFor(calls[..|calls| - 1], h) + (if calls[|calls| - 1].handler == h then 1 else 0)
  }

  /** How many of `items` are decodable events of type `t`. */
  function CountOfType(items: seq<StreamItem>, t: EventType): nat
  {
    if items == [] then 0
    else
      var last := items[|items| - 1];
      CountOfType(items[..|items| - 1], t) +
      (if last.Next? && last.event.data.Encoded? && EventTypeOf(last.event.data.value) == t then 1 else 0)
  }

  lemma {:induction false} CountForAppend(a: seq<Call>, b: seq<Call>, h: Handler)
    ensures CountFor(a + b, h) == CountFor(a, h) + CountFor(b, h)
    decreases |b|
  {
    if b == [] {
      assert a + b == a;
    } else {
      assert (a + b)[..|a + b| - 1] == a + b[..|b| - 1];
      assert (a + b)[|a + b| - 1] == b[|b| - 1];
      CountForAppend(a, b[..|b| - 1], h);
    }
  }

  lemma CountOfTypeStep(items: seq<StreamItem>, k: nat, t: EventType)
    requires 1 <= k < |items|
    ensures CountOfType(items[1..k + 1], t) == CountOfType(items[1..k], t) +
      (if items[k].Next? && items[k].event.data.Encoded? && EventTypeOf(items[k].event.data.value) == t then 1 else 0)
  {
    assert items[1..k + 1][..k - 1] == items[1..k];
  }

  /** After the handshake the test feed holds only `BlockAdded` and `FinalitySignature` messages. */
  lemma TestFeedShape()
    ensures |TestFeed()| == 7
    ensures forall j :: 1 <= j < 7 ==> IsBlockOrSignature(TestFeed()[j])
  {
  }

  /** After the handshake the test feed holds five `BlockAdded` messages. */
  lemma TestFeedBlocks()
    ensures CountOfType(TestFeed()[1..7], EventType.BlockAdded) == 5
  {
    var f, t := TestFeed(), EventType.BlockAdded;
    assert f[1..1] == [];
    CountOfTypeStep(f, 1, t);
    CountOfTypeStep(f, 2, t);
    CountOfTypeStep(f, 3, t);
    assert CountOfType(f[1..4], t) == 3;
    CountOfTypeStep(f, 4, t);
    CountOfTypeStep(f, 5, t);
    CountOfTypeStep(f, 6, t);
  }

  /** After the handshake the test feed holds one `FinalitySignature` message. */
  lemma TestFeedSignatures()
    ensures CountOfType(TestFeed()[1..7], EventType.FinalitySignature) == 1
  {
    var f, t := TestFeed(), EventType.FinalitySignature;
    assert f[1..1] == [];
    CountOfTypeStep(f, 1, t);
    CountOfTypeStep(f, 2, t);
    CountOfTypeStep(f, 3, t);
    assert CountOfType(f[1..4], t) == 0;
    CountOfTypeStep(f, 4, t);
    CountOfTypeStep(f, 5, t);
    CountOfTypeStep(f, 6, t);
  }

  /** A decodable `BlockAdded` or `FinalitySignature` message. */
  predicate IsBlockOrSignature(item: StreamItem)
  {
    item.Next? && item.event.data.Encoded? &&
    (item.event.data.value.BlockAdded? || item.event.data.value.FinalitySignature?)
  }

  /** With one handler for the type, dispatch makes exactly that one call. */
  lemma OneHandlerOneCall(calls: seq<Call>, id: nat, h: Handler, data: SseData)
    requires InvokesEachOnce(calls, map[id := h], data)
    ensures calls == [Call(id, h, data)]
  {
    InvokesEachOnceCount(calls, map[id := h], data);
  }

  /**
    A core that registered handler `hb` for `BlockAdded` and then `hf` for
    `FinalitySignature`, and then connected to the test feed.
  */
  method ConnectedTestCore(hb: Handler, hf: Handler) returns (core: ClientCore)
    ensures fresh(core) && core.Valid()
    ensures core.CurrentRegistry().eventHandlers ==
            map[EventType.BlockAdded := map[0 := hb], EventType.FinalitySignature := map[1 := hf]]
    ensures core.eventStream == Some(EventStream(TestFeed(), 1))
  {
    core := new ClientCore("mock");
    var idb := core.AddOnEventHandler(EventType.BlockAdded, hb);
    var idf := core.AddOnEventHandler(EventType.FinalitySignature, hf);
    var connected := core.Connect(Success(TestFeed()));
  }

  /** `handle_event` on one message of the test feed, for the two-handler registry. */
  method DispatchOne(core: ClientCore, event: Event, hb: Handler, hf: Handler) returns (calls: seq<Call>)
    requires core.Valid() && IsBlockOrSignature(Next(event))
    requires core.CurrentRegistry().eventHandlers ==
             map[EventType.BlockAdded := map[0 := hb], EventType.FinalitySignature := map[1 := hf]]
    ensures event.data.value.BlockAdded? ==> calls == [Call(0, hb, event.data.value)]
    ensures event.data.value.FinalitySignature? ==> calls == [Call(1, hf, event.data.value)]
  {
    var handled;
    handled, calls := core.HandleEvent(event);
    var data := event.data.value;
    if data.BlockAdded? {
      assert core.CurrentRegistry().HandlersFor(EventType.BlockAdded) == map[0 := hb];
      OneHandlerOneCall(calls, 0, hb, data);
    } else {
      assert core.CurrentRegistry().HandlersFor(EventType.FinalitySignature) == map[1 := hf];
      OneHandlerOneCall(calls, 1, hf, data);
    }
  }

  /** Dispatching message `k` of the feed adds one call for the handler of its type. */
  lemma CountsAdvance(invoked: seq<Call>, calls: seq<Call>, feed: seq<StreamItem>, k: nat, hb: Handler, hf: Handler)
    requires 1 <= k < |feed| && IsBlockOrSignature(feed[k]) && hb != hf
    requires feed[k].event.data.value.BlockAdded? ==> calls == [Call(0, hb, feed[k].event.data.value)]
    requires feed[k].event.data.value.FinalitySignature? ==> calls == [Call(1, hf, feed[k].event.data.value)]
    requires CountFor(invoked, hb) == CountOfType(feed[1..k], EventType.BlockAdded)
    requires CountFor(invoked, hf) == CountOfType(feed[1..k], EventType.FinalitySignature)
    ensures CountFor(invoked + calls, hb) == CountOfType(feed[1..k + 1], EventType.BlockAdded)
    ensures CountFor(invoked + calls, hf) == CountOfType(feed[1..k + 1], EventType.FinalitySignature)
  {
    var data := feed[k].event.data.value;
    CountOfTypeStep(feed, k, EventType.BlockAdded);
    CountOfTypeStep(feed, k, EventType.FinalitySignature);
    assert calls[..0] == [];
    assert CountFor(calls, hb) == (if data.BlockAdded? then 1 else 0);
    assert CountFor(calls, hf) == (if data.FinalitySignature? then 1 else 0);
    CountForAppend(invoked, calls, hb);
    CountForAppend(invoked, calls, hf);
  }

  /**
    The read loop the tests rely on: pull each item of the stored stream and
    dispatch it, until pulling fails. With one handler for `BlockAdded` and
    one for `FinalitySignature`, each runs once per event of its type.
  */
  method PumpEvents(core: ClientCore, feed: seq<StreamItem>, hb: Handler, hf: Handler)
    returns (invoked: seq<Call>, stop: Result<Option<Event>, ClientError>)
    requires core.Valid() && 1 <= |feed| && core.eventStream == Some(EventStream(feed, 1)) && hb != hf
    requires core.CurrentRegistry().eventHandlers ==
             map[EventType.BlockAdded := map[0 := hb], EventType.FinalitySignature := map[1 := hf]]
    requires forall j :: 1 <= j < |feed| ==> IsBlockOrSignature(feed[j])
    modifies core
    ensures stop == Failure(ClientError.StreamExhausted)
    ensures CountFor(invoked, hb) == CountOfType(feed[1..], EventType.BlockAdded)
    ensures CountFor(invoked, hf) == CountOfType(feed[1..], EventType.FinalitySignature)
  {
    var reg := core.CurrentRegistry();
    invoked := [];
    ghost var k := 1;
    assert feed[1..1] == [];
    stop := core.RunOnce();
    while stop.Success?
      invariant core.Valid() && core.CurrentRegistry() == reg
      invariant 1 <= k <= |feed| && core.eventStream.Some?
      invariant stop.Success? ==> k < |feed| && stop.value == Some(feed[k].event) &&
                                  core.eventStream.value.Remaining() == feed[k + 1..]
      invariant stop.Failure? ==> stop.error == ClientError.StreamExhausted && k == |feed|
      invariant CountFor(invoked, hb) == CountOfType(feed[1..k], EventType.BlockAdded)
      invariant CountFor(invoked, hf) == CountOfType(feed[1..k], EventType.FinalitySignature)
      decreases |feed| - k
    {
      var event := stop.value.value;
      assert IsBlockOrSignature(Next(event));
      var calls := DispatchOne(core, event, hb, hf);
      CountsAdvance(invoked, calls, feed, k, hb, hf);
      invoked := invoked + calls;
      k := k + 1;
      stop := core.RunOnce();
    }
    assert feed[1..k] == feed[1..];
  }

  /**
    Register a `BlockAdded` and a `FinalitySignature` handler before
    connecting, connect to the test feed, then pull and dispatch every event:
    the first handler runs once per `BlockAdded` (five times), the second once,
    and the stream then reports its end.
  */
  method RunInvokesHandlers() returns (blockAdded: nat, finality: nat, stop: Result<Option<Event>, ClientError>)
    ensures blockAdded == 5 && finality == 1
    ensures stop == Failure(ClientError.StreamExhausted)
  {
    var hb, hf := Handler(1), Handler(2);
    var core := ConnectedTestCore(hb, hf);
    TestFeedShape();
    TestFeedBlocks();
    TestFeedSignatures();
    var invoked;
    invoked, stop := PumpEvents(core, TestFeed(), hb, hf);
    assert TestFeed()[1..] == TestFeed()[1..7];
    blockAdded, finality := CountFor(invoked, hb), CountFor(invoked, hf);
  }

  /** A feed that does not open with `ApiVersion` is refused and the core stays disconnected. */
  method HandshakeRejected() returns (r: Result<(), ClientError>, connected: bool)
    ensures r == Failure(ClientError.InvalidHandshake) && !connected
  {
    var core := new ClientCore("mock");
    r := core.Connect(Success(TestFeed()[1..]));
    connected := core.IsConnected();
  }

  /** A second `ApiVersion` on a live feed is an error and reaches no handler. */
  method SecondHandshakeRejected() returns (r: Result<(), ClientError>, calls: seq<Call>)
    ensures r == Failure(UnexpectedHandshake) && calls == []
  {
    var hello := Msg(SseData.ApiVersion(ProtocolVersion(2, 0, 0)));
    var core := new ClientCore("mock");
    var id := core.AddOnEventHandler(EventType.ApiVersion, Handler(0));
    var connected := core.Connect(Success([hello, hello]));
    var next := core.RunOnce();
    r, calls := core.HandleEvent(next.value.value);
  }

  /** A `Shutdown` notice is an error and reaches no handler. */
  method ShutdownStopsDispatch() returns (r: Result<(), ClientError>, calls: seq<Call>)
    ensures r == Failure(NodeShutdown) && calls == []
  {
    var core := new ClientCore("mock");
    var id := core.AddOnEventHandler(EventType.Shutdown, Handler(0));
    var connected := core.Connect(Success([Msg(SseData.ApiVersion(ProtocolVersion(2, 0, 0))), Msg(SseData.Shutdown)]));
    var next := core.RunOnce();
    r, calls := core.HandleEvent(next.value.value);
  }

  /**
    The older client, connected to the test feed, returns the first
    `BlockAdded` (height 10) and then holds no stream, so a second wait
    answers `NotConnected`.
  */
  method WaitForBlockAddedOnce() returns (first: Result<SseData, SseError>, second: Result<SseData, SseError>)
    ensures first == Success(SseData.BlockAdded(Height("10")))
    ensures second == Failure(SseError.NotConnected)
  {
    var client := new SseClient.CasperEventClient("mock");
    var connected := client.Connect(Success(TestFeed()));
    assert TestFeed()[1] == Next(Event(Encoded(SseData.BlockAdded(Height("10")))));
    SseClient.ScanFindsFirstBlockAdded(TestFeed(), 1, 1, SseData.BlockAdded(Height("10")));
    first := client.WaitForEvent(EventType.BlockAdded);
    second := client.WaitForEvent(EventType.BlockAdded);
  }
}
