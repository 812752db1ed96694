# SSE client core of the Casper Rust SDK, modelled in Dafny

This project models the decision and bookkeeping logic of the SDK's clients for
a Casper node's Server-Sent-Events feed. It covers six parts:

- **`ClientCore`** (`src/api/node/sse/client_core.rs`), a class with the fields
  of the Rust struct:
  - a handler registry: the id counter, the handlers of each event type under
    their ids, and the index from id to type;
  - the connected flag and the stored event stream.

  Its operations are modelled as methods:
  - the handshake decision of `connect`, pulling one item (`run_once`), and
    dispatching an event (`handle_event`);
  - registering and removing handlers;
  - interpreting a command (`handle_command`) and acknowledging it.

  `AddOnEventHandler`, `RemoveHandler` and `HandleCommand` are proved against
  the pure registry functions `Registry.Register` and `Registry.Unregister`.
  Lemmas prove what those functions promise: ids are consecutive and never
  reused, the active ids after any sequence of operations, and removal clears
  exactly one entry. `Connect` and `RunOnce` are proved to keep the registry.
  `HandleEvent` cannot change it, and its calls are proved to invoke each
  handler of the event's type exactly once.
- **Event classification** in two places:
  - `SseData::event_type` (`src/api/node/sse/types.rs`);
  - `From<&EventData> for EventType` (`crates/node-sse/src/typeset.rs`).

  For both, lemmas prove that the map keeps the variant's name, ignores the
  payload and covers every event type, and that two values get the same type
  exactly when they are the same variant.
- **`CasperEventClient`** (`src/api/node/sse/client.rs`):
  - its constructors;
  - the same handshake rule;
  - `wait_for_event`, which takes the stream out of the client and reads it up
    to the first `BlockAdded`. It is proved equal to the recursive reference
    scan `Scan`, whose own properties are proved as lemmas.
- **The node-sse proxy configuration** (`crates/node-sse/src/proxy.rs`):
  - the documented defaults;
  - the five chained setters, each writing exactly one field;
  - last-write-wins and commutation of setters;
  - the builder, and `Proxy::new`.
- **`MaxAttempts::can_attempt`** (`src/api/node/binary/proxy/config.rs`).
- **Scenarios** (module `Scenarios`): small client programs, each proved from
  the operations' contracts alone. Most replay the situations of
  `tests/sse_client.rs`. Three come from the code's error paths instead
  (client_core.rs:45-48, 77 and 78), which no test exercises:
  `HandshakeRejected`, `SecondHandshakeRejected` and `ShutdownStopsDispatch`.
  So do `RemoveHandlerTwice`, which removes a handler a second time
  (client_core.rs:58-67), and `WaitForBlockAddedOnce`, which waits twice on
  the tests' feed (client.rs:64-99).

The network and the decoder are represented as follows:

- The HTTP request is a parameter: a `Result` holding either the sequence of
  decoded SSE items the server would deliver, or a transport error.
- An SSE message's data field is either the JSON text of some `SseData`
  (`Encoded`) or text that does not decode (`Malformed`).
- `serde_json::from_str` is the function `FromStr` over that distinction.
- A live stream is a value `EventStream(items, pos)`. The methods reassign it
  as they read.
- Callbacks are opaque tokens. Dispatch returns the list of calls it made,
  each with the registration id, the callback and the event passed.

The model follows the code:

- A second successful `connect` replaces the stored stream.
- Dispatch over a `HashMap` promises no order. The model promises only that
  each handler is invoked exactly once.
- Nothing isolates a failing callback.

`client.rs:7` imports `error::SseError` and `types::EventFilter`. However,
`error.rs` defines only `ClientError`, and `types.rs` defines no `EventFilter`
and no `SseData::type_label`. The names that `client.rs` uses but the source
never defines are modelled from how `client.rs` uses them:

- The `SseError` type. `client.rs` constructs three of its variants itself:
  `StreamExhausted`, `InvalidHandshake` and `NotConnected` (lines 49, 53, 73
  and 98). The other three are names assumed for the targets of the `?`
  conversions at lines 40, 48, 50, 76 and 77: `ConnectionError` for the request
  error, `StreamError` for a stream fault, and `DeserializationError` for a
  decoding error.
- `SseData::type_label`. It is modelled as the variant's name, which is what
  the literal `"BlockAdded"` comparison in `wait_for_event` relies on.
- `EventFilter`. It is modelled as an `EventType` that `wait_for_event` ignores.

## Model

| member | source | states |
|---|---|---|
| SseTypes.ClassificationKeepsName | src/api/node/sse/types.rs:40-53 | every `SseData` variant is classified under the `EventType` of the same name |
| SseTypes.EveryEventTypeIsReached | src/api/node/sse/types.rs:9-53 | every one of the ten event types is the classification of some event (the map is onto) |
| SseTypes.ClassificationIgnoresPayload | src/api/node/sse/types.rs:41-51 | replacing an event's JSON payload does not change its event type |
| SseTypes.SameTypeIffSameVariant | src/api/node/sse/types.rs:40-53 | two events get the same type exactly when they are built with the same variant, in both directions |
| SseTypes.HandshakeAndShutdownAreSingledOut | src/api/node/sse/types.rs:42-51 | an event is of type `ApiVersion` iff it is the handshake variant, and of type `Shutdown` iff it is `Shutdown` |
| Typeset.ConversionKeepsName | crates/node-sse/src/typeset.rs:66-80 | every `EventData` variant converts to the `EventType` of the same name |
| Typeset.EventTypeOfIsFrom | crates/node-sse/src/typeset.rs:56-59 | `EventData::event_type()` agrees with the `From` conversion on every value |
| Typeset.CodecDoesNotAffectType | crates/node-sse/src/typeset.rs:39-80 | a JSON payload and a binary payload of the same variant give the same type as the original value |
| Typeset.EveryEventTypeIsReached | crates/node-sse/src/typeset.rs:10-80 | every event type is the conversion of some event data |
| Typeset.SameTypeIffSameVariant | crates/node-sse/src/typeset.rs:66-80 | distinct variants give distinct types, and equal variants give equal types |
| SseStreams.TryNext | src/api/node/sse/client_core.rs:94-98 | pulling from a stream yields its next unread item and consumes it; at the end it reports end-of-stream and consumes nothing |
| SseStreams.Handshake | src/api/node/sse/client_core.rs:34-48 | the feed is accepted iff the request succeeded and its first item decodes to `ApiVersion`; the accepted stream is positioned after the handshake; a transport failure, an empty feed, a fault as the first item, an undecodable first message and a non-`ApiVersion` first event each give their own error |
| SseClientCore.EmptyRegistry | src/api/node/sse/client_core.rs:20-29 | a fresh registry is consistent and has no active handler |
| SseClientCore.RegisterAddsOneHandler | src/api/node/sse/client_core.rs:104-111 | registering keeps the registry consistent; the issued id is not yet in use; the type's handler map gains exactly that entry, so its size grows by one; no other type changes |
| SseClientCore.HandlerMapsAreDisjoint | src/api/node/sse/client_core.rs:105-108 | in a consistent registry an id is filed under at most one event type |
| SseClientCore.RegisterActivatesFreshId | src/api/node/sse/client_core.rs:104-111 | registering activates exactly the freshly issued id, which was not active before |
| SseClientCore.UnregisterTouchesOwnType | src/api/node/sse/client_core.rs:58-67 | removal keeps the registry consistent and never cleans the id index; a true removal deletes exactly that id from its own type (size minus one) and leaves other types alone; a false removal changes nothing |
| SseClientCore.UnregisterDeactivates | src/api/node/sse/client_core.rs:58-67 | removal answers true exactly for an active id, and afterwards exactly that id is no longer active |
| SseClientCore.SecondRemovalFails | src/api/node/sse/client_core.rs:58-67 | although the id index keeps the id, removing the same id a second time answers false |
| SseClientCore.ApplyIssuesConsecutiveIds | src/api/node/sse/client_core.rs:104-111 | over any sequence of registrations and removals the ids issued are the counter, counter+1, …, so they strictly increase and are never reused, and the counter ends past the last one |
| SseClientCore.ApplyActiveIds | src/api/node/sse/client_core.rs:58-111 | over any sequence of operations the registry stays consistent, and the active ids at the end are those at the start plus those issued, minus those whose removal answered true |
| SseClientCore.InvokesEachOnceCount | src/api/node/sse/client_core.rs:83-85 | a dispatch that invokes each handler once makes exactly as many calls as there are handlers |
| SseClientCore.InvokeAll | src/api/node/sse/client_core.rs:83-85 | the loop over one type's handlers invokes every handler exactly once, with that handler's callback and the event, and nothing else |
| SseClientCore.ClientCore.constructor | src/api/node/sse/client_core.rs:20-29 | a new core holds the url, no stream, is not connected, and has the empty registry with counter 0 |
| SseClientCore.ClientCore.Connect | src/api/node/sse/client_core.rs:31-56 | connect succeeds iff the feed opens with `ApiVersion`, then stores the stream after the handshake and sets the flag; otherwise it returns the handshake's error and leaves stream and flag as they were; the registry never changes |
| SseClientCore.ClientCore.RemoveHandler | src/api/node/sse/client_core.rs:58-67 | answers `Registry.Removes(id)` and leaves the registry `Registry.Unregister(id)` (see the lemmas above); stream and flag unchanged |
| SseClientCore.ClientCore.IsConnected | src/api/node/sse/client_core.rs:69-71 | the flag is true exactly when a stream is stored (the object invariant) |
| SseClientCore.ClientCore.HandleEvent | src/api/node/sse/client_core.rs:73-90 | undecodable data, `ApiVersion` and `Shutdown` give their errors and invoke nothing; any other event answers `Ok`, even with no handler, after invoking exactly the handlers of its type once each and none filed under another type; the registry is not changed |
| SseClientCore.ClientCore.RunOnce | src/api/node/sse/client_core.rs:92-102 | without a stream the answer is `NoEventStreamAvailable`; otherwise the next event, `EventStreamError` on a fault, or `StreamExhausted` at the end; never `Ok(None)`; a pulled item or fault is consumed; at the end nothing is |
| SseClientCore.ClientCore.AddOnEventHandler | src/api/node/sse/client_core.rs:104-111 | returns the old counter, advances it by one, and leaves the registry `Registry.Register(type, handler)` |
| SseClientCore.ClientCore.HandleCommand | src/api/node/sse/client_core.rs:113-135 | each command acknowledges with its own kind of value (`()`, the new id, the removal answer), exactly what the direct call returned; a failed connect returns its error and sends nothing; a dropped receiver gives `ReciverDroppedError`, but the registry change has already happened |
| SseClient.Scan | src/api/node/sse/client.rs:76-98 | the reference reading of `wait_for_event`: a success is a `BlockAdded`, and `StreamExhausted` means every remaining item was a skipped non-`BlockAdded` event |
| SseClient.ScanPassesSkipped | src/api/node/sse/client.rs:76-80 | skipped events do not change the answer of the scan |
| SseClient.ScanFindsFirstBlockAdded | src/api/node/sse/client.rs:76-80 | the scan returns the first `BlockAdded` that comes after only skipped events |
| SseClient.ScanStopsAtError | src/api/node/sse/client.rs:76-77 | a stream fault or an undecodable message met before any `BlockAdded` ends the scan with that error |
| SseClient.ScanSuccessIsFirstBlockAdded | src/api/node/sse/client.rs:76-80 | conversely, a successful answer is a stored `BlockAdded` preceded only by skipped events |
| SseClient.ScanExhaustedIffAllSkipped | src/api/node/sse/client.rs:95-98 | the scan reports `StreamExhausted` exactly when every remaining item is a skipped event |
| SseClient.HandshakeAndShutdownAreSkipped | src/api/node/sse/client.rs:76-80 | `ApiVersion` and `Shutdown` are read past like any other event that is not `BlockAdded` |
| SseClient.CasperEventClient.Default | src/api/node/sse/client.rs:9-27 | the default client targets `http://localhost:18101/events`, the two constants joined, and holds no stream |
| SseClient.CasperEventClient.constructor | src/api/node/sse/client.rs:30-35 | a new client holds the given url and no stream |
| SseClient.CasperEventClient.Connect | src/api/node/sse/client.rs:37-61 | the stream is stored iff the feed opens with `ApiVersion`; on failure the handshake's error is returned and nothing changes |
| SseClient.CasperEventClient.WaitForEvent | src/api/node/sse/client.rs:64-99 | with no stream the answer is `NotConnected`; otherwise it equals `Scan` of the stored stream, whatever the filter argument; afterwards the client holds no stream |
| NodeSseProxy.NewIsDefaultWithUrl | crates/node-sse/src/proxy.rs:94-126 | `new(u)` is the default configuration with only the url replaced |
| NodeSseProxy.ProxyConfig.New | crates/node-sse/src/proxy.rs:94-103 | backoff factor 2, retry delay 2 s, maximum delay 60 s, both flags true, and the given url |
| NodeSseProxy.ProxyConfig.Default | crates/node-sse/src/proxy.rs:115-126 | the same values with url `http://localhost:14101/events` |
| NodeSseProxy.ProxyConfig.BackoffFactor | crates/node-sse/src/proxy.rs:135-138 | writes only the backoff factor and returns the same object |
| NodeSseProxy.ProxyConfig.DelayOnRetry | crates/node-sse/src/proxy.rs:141-144 | writes only the retry delay and returns the same object |
| NodeSseProxy.ProxyConfig.MaxDelayBetweenReconnects | crates/node-sse/src/proxy.rs:147-150 | writes only the maximum delay and returns the same object |
| NodeSseProxy.ProxyConfig.ReconnectOnError | crates/node-sse/src/proxy.rs:153-156 | writes only the reconnect flag and returns the same object |
| NodeSseProxy.ProxyConfig.RetryInitialConnection | crates/node-sse/src/proxy.rs:159-162 | writes only the initial-retry flag and returns the same object |
| NodeSseProxy.ApplySetter | crates/node-sse/src/proxy.rs:135-162 | any one setter leaves the configuration as `Updated` describes and returns the same object |
| NodeSseProxy.Updated | crates/node-sse/src/proxy.rs:135-162 | no setter changes the url |
| NodeSseProxy.LastWriteWins | crates/node-sse/src/proxy.rs:135-162 | setting a field twice equals setting it once, to the second value |
| NodeSseProxy.SettersOfDistinctFieldsCommute | crates/node-sse/src/proxy.rs:135-162 | setters of different fields commute |
| NodeSseProxy.ChainKeepsUrl | crates/node-sse/src/proxy.rs:133-163 | no chain of setters changes the url, which only a constructor writes |
| NodeSseProxy.ApplyChain | crates/node-sse/src/proxy.rs:135-162 | a chained call lands every setter on the same object, leaving it as the chain of updates describes |
| NodeSseProxy.ProxyConfigBuilder.constructor | crates/node-sse/src/proxy.rs:106-112 | a new builder holds a fresh configuration equal to the default |
| NodeSseProxy.NewProxy | crates/node-sse/src/proxy.rs:85-90 | a new proxy holds the configuration's values and no handler |
| BinaryProxyConfig.InfiniteAllowsEveryAttempt | src/api/node/binary/proxy/config.rs:49 | without a bound every attempt is allowed |
| BinaryProxyConfig.FiniteBoundIsInclusive | src/api/node/binary/proxy/config.rs:50 | with bound n, attempt k is allowed iff k ≤ n: attempt n is allowed, attempt n + 1 is not |
| BinaryProxyConfig.CanAttemptIsDownwardClosed | src/api/node/binary/proxy/config.rs:47-52 | if an attempt is allowed, every earlier attempt is allowed |
| BinaryProxyConfig.ZeroBoundAllowsOnlyFirst | src/api/node/binary/proxy/config.rs:50 | a zero bound allows attempt 0 and nothing else |
| Scenarios.TestFeedShape | tests/sse_client.rs:11-19 | after the handshake the tests' feed holds only `BlockAdded` and `FinalitySignature` messages |
| Scenarios.TestFeedBlocks | tests/sse_client.rs:11-19 | the tests' feed holds five `BlockAdded` messages after the handshake |
| Scenarios.TestFeedSignatures | tests/sse_client.rs:11-19 | the tests' feed holds one `FinalitySignature` message after the handshake |
| Scenarios.AddHandlers | tests/sse_client.rs:47-70 | a fresh core issues ids 0 and then 1 for two registrations of one type; after the first, the type has one handler and `id_types` holds the id; after the second, it has two handlers and both ids are among its keys |
| Scenarios.RemoveRegisteredHandler | tests/sse_client.rs:72-101 | removing the second of two handlers answers true and leaves one handler, without that id |
| Scenarios.RemoveHandlerTwice | src/api/node/sse/client_core.rs:58-67 | removing a registered handler answers true; removing the same id again answers false, although `id_types` still holds it |
| Scenarios.PumpEvents | tests/sse_client.rs:103-140 | pulling and dispatching every event of a connected feed invokes each of the two handlers once per event of its type, and then the stream reports its end |
| Scenarios.RunInvokesHandlers | tests/sse_client.rs:103-140 | with a `BlockAdded` and a `FinalitySignature` handler registered before connecting to the tests' feed, the first runs five times and the second once |
| Scenarios.HandshakeRejected | src/api/node/sse/client_core.rs:45-48 | a feed that does not open with `ApiVersion` is refused with `InvalidHandshake`, and the core is not connected |
| Scenarios.SecondHandshakeRejected | src/api/node/sse/client_core.rs:77 | a second `ApiVersion` is an `UnexpectedHandshake` error, even when a handler for that type exists, and reaches no handler |
| Scenarios.ShutdownStopsDispatch | src/api/node/sse/client_core.rs:78 | a `Shutdown` notice is a `NodeShutdown` error and reaches no handler |
| Scenarios.WaitForBlockAddedOnce | src/api/node/sse/client.rs:64-99 | on the feed of tests/sse_client.rs:11-19 the older client returns the first `BlockAdded` (height 10); a second wait answers `NotConnected`, because the first took the stream |

## Left out

- HTTP transport and SSE wire decoding (`reqwest`, `.eventsource()`): these are foreign-library I/O. A request's outcome is a parameter holding the decoded items, or a transport error.
- JSON decoding (`serde_json::from_str`): treated as an abstract function that either yields an `SseData` or fails. JSON payloads are opaque text.
- Executing callbacks: callbacks are arbitrary closures. Dispatch records the calls it makes instead of running them.
- SseClientCore.ClientCore.HandleEvent: does not state the order in which one type's handlers run, because the source iterates a `HashMap`.
- SseClientCore.ClientCore.HandleCommand: the ack channel is modelled by a `receiverAlive` flag and a returned acknowledgement. The async actor loop, the `mpsc`/`oneshot` channels, the `Client` facade and its timeouts are concurrency, and are not part of this model.
- SseClientCore.ClientCore.AddOnEventHandler: the `u64` id counter is an unbounded `nat`, so overflow after 2^64 registrations is not modelled.
- SseClient.CasperEventClient.WaitForEvent: `client.rs:7` imports `types::EventFilter`, which `types.rs` does not define. The argument is modelled as an ignored `EventType`, as the code ignores it.
- `Duration` fields of the proxy configuration are whole seconds. No sub-second durations are set anywhere.
- `Proxy::run` and `Proxy::run1` are `unimplemented!()` and have no behaviour to model.
- `From<&ProxyConfig> for ReconnectOptions` builds a type of a library that is not part of this model.
- The `ProxyEventHandler` trait's three callbacks are not modelled: a proxy's handler is an opaque token. The `ProxyEventInfo` record has no operations.
- The binary-port `ProxyConfig` and `ExponentialBackoffConfig` are data records without operations. Only `MaxAttempts` is modelled.
- `crates/node-sse/src/client.rs` is a one-line wrapper over `Proxy::new`.
- The binary-port proxy and client stubs, the defaults file and the factory module have no logic.
- The cctl integration tests and the mock server are network harnesses. The situations of `tests/sse_client.rs` appear as the `Scenarios` methods. The `wait_for_event` test (tests/sse_client.rs:142-172) is ignored in the source. It also calls the facade `Client::wait_for_event(EventType, predicate, timeout)` (tests/sse_client.rs:3, 146, 160-162), not `CasperEventClient::wait_for_event`. `Scenarios.WaitForBlockAddedOnce` states what the code as written returns for the tests' feed.
