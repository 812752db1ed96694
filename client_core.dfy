/**
  The SSE client core (src/api/node/sse/client_core.rs): a registry of event
  handlers keyed by event type, the stored event stream, and the operations
  the actor applies to them: connect, pull the next item, dispatch an event,
  register and remove handlers, and interpret commands.
*/
module SseClientCore {
  import opened Wrappers
  import opened SseTypes
  import opened SseErrors
  import opened SseStreams

  /**
    The handler bookkeeping of a core: the id counter, the handlers of each
    event type under their ids, and the index from id to event type.
  */
  datatype Registry = Registry(
    nextHandlerId: nat,
    eventHandlers: map<EventType, map<nat, Handler>>,
    idTypes: map<nat, EventType>)
  {
    /** The handlers registered for `t`; empty when the type has none. */
    function HandlersFor(t: EventType): map<nat, Handler>
    {
      if t in eventHandlers then eventHandlers[t] else map[]
    }

    /** Every issued id is below the counter, and every live handler is indexed under its own type. */
    ghost predicate Valid()
    {
      && (forall id :: id in idTypes ==> id < nextHandlerId)
      && (forall t, id :: t in eventHandlers && id in eventHandlers[t] ==> id in idTypes && idTypes[id] == t)
    }

    /** The ids whose handler is still registered. */
    ghost function ActiveIds(): set<nat>
    {
      set id | id in idTypes && id in HandlersFor(idTypes[id])
    }

    /** `add_on_event_handler`: file `h` under `t` with the current counter as its id. */
    function Register(t: EventType, h: Handler): Registry
    {
      Registry(nextHandlerId + 1,
               eventHandlers[t := HandlersFor(t)[nextHandlerId := h]],
               idTypes[nextHandlerId := t])
    }

    /** The answer of `remove_handler(id)`: the id is indexed and still in its type's map. */
    predicate Removes(id: nat)
    {
      id in idTypes && idTypes[id] in eventHandlers && id in eventHandlers[idTypes[id]]
    }

    /** `remove_handler(id)`: drop `id` from the map its index names; the index itself is kept. */
    function Unregister(id: nat): Registry
    {
      if id in idTypes && idTypes[id] in eventHandlers then
        var t := idTypes[id];
        this.(eventHandlers := eventHandlers[t := eventHandlers[t] - {id}])
      else
        this
    }
  }

  /** The registry of a freshly created core. */
  function EmptyRegistry(): (r: Registry)
    ensures r.Valid() && r.ActiveIds() == {}
  {
    Registry(0, map[], map[])
  }

  /** Registering issues the current counter, adds exactly one handler to `t` and touches no other type. */
  lemma RegisterAddsOneHandler(r: Registry, t: EventType, h: Handler)
    requires r.Valid()
    ensures r.Register(t, h).Valid()
    ensures forall u :: r.nextHandlerId !in r.HandlersFor(u)
    ensures r.Register(t, h).HandlersFor(t) == r.HandlersFor(t)[r.nextHandlerId := h]
    ensures |r.Register(t, h).HandlersFor(t)| == |r.HandlersFor(t)| + 1
    ensures forall u :: u != t ==> r.Register(t, h).HandlersFor(u) == r.HandlersFor(u)
  {
    var n := r.nextHandlerId;
    forall u ensures n !in r.HandlersFor(u) {
      assert n !in r.idTypes;
    }
  }

  /** A consistent registry files each id under at most one event type. */
  lemma HandlerMapsAreDisjoint(r: Registry, t: EventType, u: EventType, id: nat)
    requires r.Valid() && t != u && id in r.HandlersFor(t)
    ensures id !in r.HandlersFor(u)
  {
    assert r.idTypes[id] == t;
  }

  /** Registering activates exactly the freshly issued id. */
  lemma RegisterActivatesFreshId(r: Registry, t: EventType, h: Handler)
    requires r.Valid()
    ensures r.nextHandlerId !in r.ActiveIds()
    ensures r.Register(t, h).ActiveIds() == r.ActiveIds() + {r.nextHandlerId}
  {
    RegisterAddsOneHandler(r, t, h);
    var r' := r.Register(t, h);
    var n := r.nextHandlerId;
    forall id ensures id in r'.ActiveIds() <==> id in r.ActiveIds() + {n} {
      if id != n && id in r.idTypes {
        var u := r.idTypes[id];
        assert r'.idTypes[id] == u;
        assert id in r'.HandlersFor(u) <==> id in r.HandlersFor(u);
      }
    }
  }

  /**
    Removal changes only the handlers of the id's own type, removing just
    that id from them, and keeps the invariant; a removal that answers false
    changes nothing.
  */
  lemma UnregisterTouchesOwnType(r: Registry, id: nat)
    requires r.Valid()
    ensures r.Unregister(id).Valid()
    ensures r.Unregister(id).idTypes == r.idTypes
    ensures r.Unregister(id).nextHandlerId == r.nextHandlerId
    ensures !r.Removes(id) ==> r.Unregister(id) == r
    ensures r.Removes(id) ==>
      var t := r.idTypes[id];
      && r.Unregister(id).HandlersFor(t) == r.HandlersFor(t) - {id}
      && |r.Unregister(id).HandlersFor(t)| == |r.HandlersFor(t)| - 1
      && forall u :: u != t ==> r.Unregister(id).HandlersFor(u) == r.HandlersFor(u)
  {
    if id in r.idTypes && r.idTypes[id] in r.eventHandlers {
      var t := r.idTypes[id];
      if id !in r.eventHandlers[t] {
        assert r.eventHandlers[t] - {id} == r.eventHandlers[t];
      }
    }
  }

  /** Removal answers true exactly for an active id, and deactivates exactly that id. */
  lemma UnregisterDeactivates(r: Registry, id: nat)
    requires r.Valid()
    ensures r.Removes(id) <==> id in r.ActiveIds()
    ensures r.Unregister(id).ActiveIds() == r.ActiveIds() - {id}
  {
    UnregisterTouchesOwnType(r, id);
    var r' := r.Unregister(id);
    if r.Removes(id) {
      forall k ensures k in r'.ActiveIds() <==> k in r.ActiveIds() - {id} {
        if k in r.idTypes {
          var u := r.idTypes[k];
          assert k in r'.HandlersFor(u) <==> k in r.HandlersFor(u) && k != id;
        }
      }
    }
  }

  /** `id_types` is never cleaned, yet removing the same id a second time answers false. */
  lemma SecondRemovalFails(r: Registry, id: nat)
    requires r.Valid()
    ensures !r.Unregister(id).Removes(id)
  {
    UnregisterTouchesOwnType(r, id);
    UnregisterDeactivates(r, id);
    UnregisterDeactivates(r.Unregister(id), id);
  }

  /** One registry operation, as issued by a caller. */
  datatype RegistryOp = Add(eventType: EventType, handler: Handler) | Remove(id: nat)

  /** What a run of operations produced: the final registry, the ids issued in order, the ids removed. */
  datatype Run = Run(registry: Registry, issued: seq<nat>, removed: set<nat>)

  /** Apply `ops` in order, collecting the issued ids and the ids whose removal answered true. */
  function Apply(r: Registry, ops: seq<RegistryOp>): Run
    decreases |ops|
  {
    if ops == [] then Run(r, [], {})
    else
      match ops[0]
      case Add(t, h) =>
        var rest := Apply(r.Register(t, h), ops[1..]);
        rest.(issued := [r.nextHandlerId] + rest.issued)
      case Remove(id) =>
        var rest := Apply(r.Unregister(id), ops[1..]);
        if r.Removes(id) then rest.(removed := {id} + rest.removed) else rest
  }

  /** The ids a run issues are consecutive from the counter: strictly increasing and never reused. */
  lemma {:induction false} ApplyIssuesConsecutiveIds(r: Registry, ops: seq<RegistryOp>)
    ensures forall i :: 0 <= i < |Apply(r, ops).issued| ==> Apply(r, ops).issued[i] == r.nextHandlerId + i
    ensures Apply(r, ops).registry.nextHandlerId == r.nextHandlerId + |Apply(r, ops).issued|
    decreases |ops|
  {
    if ops != [] {
      match ops[0]
      case Add(t, h) =>
        ApplyIssuesConsecutiveIds(r.Register(t, h), ops[1..]);
      case Remove(id) =>
        ApplyIssuesConsecutiveIds(r.Unregister(id), ops[1..]);
    }
  }

  /**
    For every sequence of registrations and removals, the active ids at the
    end are those active at the start plus those issued, minus those whose
    removal answered true.
  */
  lemma {:induction false} ApplyActiveIds(r: Registry, ops: seq<RegistryOp>)
    requires r.Valid()
    ensures Apply(r, ops).registry.Valid()
    ensures Apply(r, ops).registry.ActiveIds() ==
            (r.ActiveIds() + set i | i in Apply(r, ops).issued) - Apply(r, ops).removed
    decreases |ops|
  {
    if ops != [] {
      match ops[0]
      case Add(t, h) =>
        RegisterActivatesFreshId(r, t, h);
        RegisterAddsOneHandler(r, t, h);
        ApplyActiveIds(r.Register(t, h), ops[1..]);
      case Remove(id) =>
        UnregisterTouchesOwnType(r, id);
        UnregisterDeactivates(r, id);
        var r' := r.Unregister(id);
        ApplyActiveIds(r', ops[1..]);
        ApplyIssuesConsecutiveIds(r', ops[1..]);
        var rest := Apply(r', ops[1..]);
        if r.Removes(id) {
          assert id < r'.nextHandlerId by {
            assert id in r.idTypes;
          }
          assert id !in (set i | i in rest.issued) by {
            forall k | 0 <= k < |rest.issued| ensures rest.issued[k] != id {
            }
          }
        }
    }
  }

  /** One handler invocation made by dispatch: the registration, its callback, the event passed. */
  datatype Call = Call(id: nat, handler: Handler, data: SseData)

  /** The ids that a list of calls invoked. */
  function CallIds(calls: seq<Call>): set<nat>
  {
    set c | c in calls :: c.id
  }

  lemma CallIdsAppend(calls: seq<Call>, c: Call)
    ensures CallIds(calls + [c]) == CallIds(calls) + {c.id}
    ensures forall i :: 0 <= i < |calls| ==> calls[i].id in CallIds(calls)
  {
    assert forall x :: x in calls + [c] <==> x in calls || x == c;
  }

  /** No registration is invoked twice. */
  predicate DistinctIds(calls: seq<Call>)
  {
    forall i, j :: 0 <= i < j < |calls| ==> calls[i].id != calls[j].id
  }

  /** `calls` invokes every handler of `handlers` exactly once, each with `data`, and nothing else. */
  predicate InvokesEachOnce(calls: seq<Call>, handlers: map<nat, Handler>, data: SseData)
  {
    && CallIds(calls) == handlers.Keys
    && DistinctIds(calls)
    && forall i :: 0 <= i < |calls| ==>
         calls[i].id in handlers && calls[i].handler == handlers[calls[i].id] && calls[i].data == data
  }

  /** Invoking each handler once makes as many calls as there are handlers. */
  lemma {:induction false} InvokesEachOnceCount(calls: seq<Call>, handlers: map<nat, Handler>, data: SseData)
    requires InvokesEachOnce(calls, handlers, data)
    ensures |calls| == |handlers|
  {
    DistinctCallsCount(calls);
    assert |handlers| == |handlers.Keys|;
  }

  lemma {:induction false} DistinctCallsCount(calls: seq<Call>)
    requires DistinctIds(calls)
    ensures |CallIds(calls)| == |calls|
  {
    if calls != [] {
      var last := calls[|calls| - 1];
      var init := calls[..|calls| - 1];
      assert DistinctIds(init);
      DistinctCallsCount(init);
      assert CallIds(calls) == CallIds(init) + {last.id} by {
        assert calls == init + [last];
      }
      assert last.id !in CallIds(init) by {
        forall c | c in init ensures c.id != last.id {
          var i :| 0 <= i < |init| && init[i] == c;
          assert calls[i] == c;
        }
      }
    }
  }

  /**
    The loop of `handle_event` over one type's handlers: invoke each callback
    with the event, in whatever order the map yields them, and record the calls.
  */
  method InvokeAll(handlers: map<nat, Handler>, data: SseData) returns (calls: seq<Call>)
    ensures InvokesEachOnce(calls, handlers, data)
  {
    calls := [];
    var pending := handlers.Keys;
    while pending != {}
      invariant pending <= handlers.Keys
      invariant CallIds(calls) == handlers.Keys - pending
      invariant DistinctIds(calls)
      invariant forall i :: 0 <= i < |calls| ==>
        calls[i].id in handlers && calls[i].handler == handlers[calls[i].id] && calls[i].data == data
      decreases pending
    {
      var id :| id in pending;
      CallIdsAppend(calls, Call(id, handlers[id], data));
      calls := calls + [Call(id, handlers[id], data)];
      pending := pending - {id};
    }
  }

  /** The error `connect` reports for a failed handshake. */
  function ConnectError(e: HandshakeError): ClientError
  {
    match e
    case Transport(t) => ClientError.ConnectionError(t)
    case Faulted(f) => ClientError.EventStreamError(f)
    case Exhausted => ClientError.StreamExhausted
    case Undecodable(d) => ClientError.DeserializationError(d)
    case NotApiVersion => ClientError.InvalidHandshake
  }

  class ClientCore {
    var url: string
    var eventStream: Option<EventStream>
    var nextHandlerId: nat
    var eventHandlers: map<EventType, map<nat, Handler>>
    var idTypes: map<nat, EventType>
    var isConnected: bool

    /** The registry held in the three bookkeeping fields. */
    function CurrentRegistry(): Registry
      reads this
    {
      Registry(nextHandlerId, eventHandlers, idTypes)
    }

    /** The object invariant: a consistent registry, and connected exactly when a stream is held. */
    ghost predicate Valid()
      reads this
    {
      && CurrentRegistry().Valid()
      && (isConnected <==> eventStream.Some?)
      && (eventStream.Some? ==> eventStream.value.Valid())
    }

    /** `ClientCore::new`: no stream, not connected, empty registry, counter at 0. */
    constructor (url: string)
      ensures Valid()
      ensures this.url == url && eventStream == None && !isConnected
      ensures CurrentRegistry() == EmptyRegistry()
    {
      this.url := url;
      eventStream := None;
      nextHandlerId := 0;
      eventHandlers := map[];
      idTypes := map[];
      isConnected := false;
    }

    /**
      `connect`, from the request's outcome on: the stream is stored and the
      core marked connected only when the feed opens with `ApiVersion`; every
      failure is reported and leaves the core as it was.
    */
    method Connect(response: Result<seq<StreamItem>, TransportError>) returns (r: Result<(), ClientError>)
      requires Valid()
      modifies this
      ensures Valid()
      ensures url == old(url) && CurrentRegistry() == old(CurrentRegistry())
      ensures r.Success? <==> response.Success? && StartsWithApiVersion(response.value)
      ensures r.Success? ==> isConnected && eventStream == Some(EventStream(response.value, 1))
      ensures r.Failure? ==> r.error == ConnectError(Handshake(response).error)
      ensures r.Failure? ==> isConnected == old(isConnected) && eventStream == old(eventStream)
    {
      var outcome := Handshake(response);
      if outcome.Failure? {
        return Failure(ConnectError(outcome.error));
      }
      eventStream := Some(outcome.value);
      isConnected := true;
      r := Success(());
    }

    /**
      `remove_handler`: answers whether `id` named a registered handler and, if
      so, removes just that one.
    */
    method RemoveHandler(id: nat) returns (removed: bool)
      requires Valid()
      modifies this
      ensures Valid()
      ensures removed == old(CurrentRegistry()).Removes(id)
      ensures CurrentRegistry() == old(CurrentRegistry()).Unregister(id)
      ensures url == old(url) && eventStream == old(eventStream) && isConnected == old(isConnected)
    {
      UnregisterTouchesOwnType(CurrentRegistry(), id);
      if id in idTypes {
        var eventType := idTypes[id];
        if eventType in eventHandlers {
          var handlersForType := eventHandlers[eventType];
          removed := id in handlersForType;
          eventHandlers := eventHandlers[eventType := handlersForType - {id}];
        } else {
          removed := false;
        }
      } else {
        removed := false;
      }
    }

    /** `is_connected`. */
    method IsConnected() returns (b: bool)
      requires Valid()
      ensures b <==> eventStream.Some?
    {
      b := isConnected;
    }

    /**
      `handle_event`: decode the message; a decoding failure, a second
      `ApiVersion` and `Shutdown` are errors that invoke nothing; any other
      event invokes every handler of its type once, and only those. The
      registry is not changed.
    */
    method HandleEvent(event: Event) returns (r: Result<(), ClientError>, calls: seq<Call>)
      requires Valid()
      ensures FromStr(event.data).Failure? ==>
        r == Failure(ClientError.DeserializationError(FromStr(event.data).error)) && calls == []
      ensures FromStr(event.data).Success? && FromStr(event.data).value.ApiVersion? ==>
        r == Failure(UnexpectedHandshake) && calls == []
      ensures FromStr(event.data).Success? && FromStr(event.data).value.Shutdown? ==>
        r == Failure(NodeShutdown) && calls == []
      ensures FromStr(event.data).Success? && !FromStr(event.data).value.ApiVersion? &&
              !FromStr(event.data).value.Shutdown? ==>
        var data := FromStr(event.data).value;
        && r == Success(())
        && InvokesEachOnce(calls, CurrentRegistry().HandlersFor(EventTypeOf(data)), data)
        && forall i, u :: 0 <= i < |calls| && u != EventTypeOf(data) ==> calls[i].id !in CurrentRegistry().HandlersFor(u)
    {
      var decoded := FromStr(event.data);
      if decoded.Failure? {
        return Failure(ClientError.DeserializationError(decoded.error)), [];
      }
      var data := decoded.value;
      if data.ApiVersion? {
        r, calls := Failure(UnexpectedHandshake), [];
      } else if data.Shutdown? {
        r, calls := Failure(NodeShutdown), [];
      } else {
        var t := EventTypeOf(data);
        calls := [];
        if t in eventHandlers {
          calls := InvokeAll(eventHandlers[t], data);
        }
        forall i, u | 0 <= i < |calls| && u != t ensures calls[i].id !in CurrentRegistry().HandlersFor(u) {
          HandlerMapsAreDisjoint(CurrentRegistry(), t, u, calls[i].id);
        }
        r := Success(());
      }
    }

    /**
      `run_once`: pull the next item of the stored stream. Without a stream
      the answer is `NoEventStreamAvailable`; otherwise an event, a fault or
      the end of the stream, never "no event and no error".
    */
    method RunOnce() returns (r: Result<Option<Event>, ClientError>)
      requires Valid()
      modifies this
      ensures Valid()
      ensures url == old(url) && CurrentRegistry() == old(CurrentRegistry()) && isConnected == old(isConnected)
      ensures r != Success(None)
      ensures old(eventStream).None? ==> r == Failure(NoEventStreamAvailable) && eventStream == None
      ensures old(eventStream).Some? && old(eventStream).value.Remaining() == [] ==>
        r == Failure(ClientError.StreamExhausted) && eventStream == old(eventStream)
      ensures old(eventStream).Some? && old(eventStream).value.Remaining() != [] ==>
        && eventStream.Some?
        && eventStream.value.Remaining() == old(eventStream).value.Remaining()[1..]
        && r == match old(eventStream).value.Remaining()[0]
                case Next(e) => Success(Some(e))
                case Fault(f) => Failure(ClientError.EventStreamError(f))
    {
      if eventStream.Some? {
        var (pulled, rest) := TryNext(eventStream.value);
        eventStream := Some(rest);
        match pulled
        case Item(e) => r := Success(Some(e));
        case EndOfStream => r := Failure(ClientError.StreamExhausted);
        case Failed(f) => r := Failure(ClientError.EventStreamError(f));
      } else {
        r := Failure(NoEventStreamAvailable);
      }
    }

    /**
      `add_on_event_handler`: file the handler under the current counter,
      index it by its type, advance the counter, and return the id.
    */
    method AddOnEventHandler(eventType: EventType, handler: Handler) returns (id: nat)
      requires Valid()
      modifies this
      ensures Valid()
      ensures id == old(nextHandlerId) && nextHandlerId == id + 1
      ensures CurrentRegistry() == old(CurrentRegistry()).Register(eventType, handler)
      ensures url == old(url) && eventStream == old(eventStream) && isConnected == old(isConnected)
    {
      RegisterAddsOneHandler(CurrentRegistry(), eventType, handler);
      var handlers := if eventType in eventHandlers then eventHandlers[eventType] else map[];
      id := nextHandlerId;
      eventHandlers := eventHandlers[eventType := handlers[id := handler]];
      idTypes := idTypes[id := eventType];
      nextHandlerId := nextHandlerId + 1;
    }

    /**
      `handle_command`: apply the command, then send its acknowledgement.
      `response` is what the network answers should the command connect;
      `receiverAlive` says whether the caller still waits on the channel. The
      registry change happens even when the acknowledgement cannot be sent; a
      failed connect returns its error and acknowledges nothing.
    */
    method HandleCommand(command: CoreCommand, response: Result<seq<StreamItem>, TransportError>, receiverAlive: bool)
      returns (r: Result<(), ClientError>, ack: Option<Ack>)
      requires Valid()
      modifies this
      ensures Valid() && url == old(url)
      ensures ack.Some? ==> AckFits(command, ack.value)
      ensures command.AddOnEventHandler? ==>
        && CurrentRegistry() == old(CurrentRegistry()).Register(command.eventType, command.handler)
        && eventStream == old(eventStream) && isConnected == old(isConnected)
        && ack == (if receiverAlive then Some(Registered(old(nextHandlerId))) else None)
        && r == (if receiverAlive then Success(()) else Failure(ReciverDroppedError))
      ensures command.RemoveEventHandler? ==>
        && CurrentRegistry() == old(CurrentRegistry()).Unregister(command.id)
        && eventStream == old(eventStream) && isConnected == old(isConnected)
        && ack == (if receiverAlive then Some(RemovalResult(old(CurrentRegistry()).Removes(command.id))) else None)
        && r == (if receiverAlive then Success(()) else Failure(ReciverDroppedError))
      ensures command.Connect? ==>
        && CurrentRegistry() == old(CurrentRegistry())
        && (if Handshake(response).Failure? then
              && r == Failure(ConnectError(Handshake(response).error)) && ack == None
              && eventStream == old(eventStream) && isConnected == old(isConnected)
            else
              && eventStream == Some(Handshake(response).value) && isConnected
              && ack == (if receiverAlive then Some(Connected) else None)
              && r == (if receiverAlive then Success(()) else Failure(ReciverDroppedError)))
    {
      var reply: Ack;
      match command {
        case AddOnEventHandler(eventType, handler) =>
          var eventId := AddOnEventHandler(eventType, handler);
          reply := Registered(eventId);
        case Connect =>
          var connected := Connect(response);
          if connected.Failure? {
            return connected, None;
          }
          reply := Connected;
        case RemoveEventHandler(id) =>
          var removed := RemoveHandler(id);
          reply := RemovalResult(removed);
      }
      if receiverAlive {
        r, ack := Success(()), Some(reply);
      } else {
        r, ack := Failure(ReciverDroppedError), None;
      }
    }
  }
}
