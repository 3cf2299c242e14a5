# Epicalyx in Dafny

Epicalyx is a JSON-over-WebSocket RPC protocol. Every message is an envelope
with `epicalyx: "1.0"` and a `type` discriminator. A client sends a
`method-req` with a fresh id, a method name and parameters. The server routes
it to a registered method listener, runs the listener's parameter
validation, and answers with a `method-res` under the same id. That reply
carries either a `result` or a structured `error`, whose code is the thrown
value's own code or `INTERNAL_ERROR`.

This project models the two server engines and the two client generations.

- `json.dfy` (module `Json`): parsed JSON values. It defines JavaScript
  truthiness and property access, where undefined reads as null.
- `wire.dfy` (module `Wire`, `types.ts`): the envelope variants and their JSON
  form, and how a server reads a `method-req`.
- `failures.dfy` (module `Failures`): what both servers share.
  - A thrown value becomes the wire error, and internal errors are redacted.
  - A failed validation becomes a `USER_FAULT` carrying the first violation.
  - Path matching is a function parameter (`Matcher`), and so is JSON
    validation (`Validator`).
- `server_engine.dfy` (module `EpicalyxServer`, `server/epicalyx.ts`): the
  newer server.
  - A `Server` class holds the client table and the method-error observers.
  - A `Session` class holds the close callbacks, one message listener per
    `registerMethod`, and the socket and timer state.
  - Dispatch is pure: frame verification, exact or pattern routing,
    validation, the reply, and the observer calls.
  - A keepalive model tracks the ping interval and the pong grace timer.
- `transport_server.dfy` (module `TransportServer`, `server.ts`): the older
  server over a pluggable transport. It has an exact-name method registry
  with chains of validators, and it answers an unknown name with
  `METHOD_NOT_FOUND`.
- `status.dfy` (module `Status`): what both clients share.
  - The status code, and `connected`, `isOff` and `statusText` derived from
    it.
  - The `/supports-epicalyx-v1` probe and its outcome.
  - The retry-delay default.
- `calls.dfy` (module `Calls`): how a `method-res` settles a pending call, and
  the older client's version check on incoming messages.
- `transport_client.dfy` (module `TransportClient`, `client.ts`): the older
  client. It has `setUrl`, the probe, `connect` racing the transport against
  a timeout, `turnOff`, reconnects and method calls.
- `connection.dfy` (module `ClientConnection`, `client/connection.ts`): the
  newer client's connection. It has `turnOn` and `turnOff`, the retry policy,
  send-or-queue, and listener fan-out.
- `connection_client.dfy` (module `ConnectionClient`, `client/epicalyx.ts`):
  the newer client. Its first listener settles method calls.
- `protocol.dfy` (module `Protocol`): one method call end to end, across both
  ends of the wire.

How the model treats the code:

- Asynchronous functions are split at their `await`s into a method for the
  part before and a method for the part after. Examples are
  `BeginCheckSupport`/`FinishCheckSupport` and `BeginConnect` with
  `Opened`, `Failed` and `TimedOut`.
- The clients' retry and reconnect timers are counters of scheduled
  firings, and a method for a firing requires one to be scheduled. The
  newer server's ping interval and pong grace timer are flags, which a
  session's clear and fire methods switch off.
- Sockets are numbered in creation order.
- Function values supplied by the application or a library (listeners,
  validators, `matchPath`, `new URL`, `shouldRetryConnection`) are
  function-typed parameters. Closures that are only stored and called are
  opaque ids, and the model records every call made to them.
- Fresh uuids are a caller's precondition that the id is not in use.

## Model

| member | source | states |
|---|---|---|
| Wire.DownType | types.ts:113-120 | a downward message's `type` is one of the seven downward literals; it is `method-res` exactly for a method response and `connection-closing` exactly for a closing notice; it is never `method-req` |
| Wire.UpType | types.ts:122 | an upward message's `type` is one of the four upward literals, never `method-res` or `connection-closing`, and `method-req` exactly for a request |
| Wire.Envelope | types.ts:8-22 | every envelope carries `epicalyx: "1.0"`, its discriminator and the variant's own fields |
| Wire.EncodeError | types.ts:3-6 | a structured error is a truthy object with its `code` and its `message`, whatever JSON value the message is |
| Wire.EncodeOptError | types.ts:21 | `ResError` or null: null exactly when there is no error |
| Wire.EncodeUpdates | types.ts:72-75 | one entry per data update, in order, each `{indexes: [from, to], data}` |
| Wire.EncodeCatchUp | types.ts:77-88 | catch-up data is a truthy object whose `strategy` is `replace` exactly for replace data, and `fill` otherwise |
| Wire.EncodeMethodReq | types.ts:8-14 | a request carries its id, its method name as `method`, and its params |
| Wire.EncodeMethodRes | types.ts:16-22 | a response carries its id and result; its `error` is truthy exactly when an error is set |
| Wire.EncodeTransmissionRes | types.ts:54-70 | exactly one of `error` and `catchUpData` is null; `catchUpData` is null exactly for the error variant |
| Wire.EncodeDown | types.ts:113-120 | every downward message carries the version and its own discriminator; a recall has index 0; a closing notice carries its code and reason |
| Wire.EncodeUp | types.ts:122 | every upward message carries the version and its own discriminator |
| Wire.ReadMethodReq | server/epicalyx.ts:197-199 | a frame is read as a request only when its type is `method-req`, and then with its id, method and params as sent |
| Wire.ReadEncodedMethodReq | types.ts:8-14 | reading an encoded request gives back the request |
| Wire.OtherUpNotRequest | types.ts:122 | no other upward variant is ever read as a request |
| Wire.DownNotRequest | types.ts:113-120 | no downward message is ever read as a request |
| Failures.ErrorReply | server/epicalyx.ts:265-289 | there is no reply exactly when null or undefined was thrown; otherwise the code is the thrown value's own non-empty string code, or else INTERNAL_ERROR; an INTERNAL_ERROR always carries "Internal server error", and any other code carries the thrown message unchanged |
| Failures.MessageRedaction | server/epicalyx.ts:266-287 | every thrown value except null and undefined gets an error; its message reaches the wire exactly when the value has its own code other than INTERNAL_ERROR; otherwise the fixed message does |
| Failures.FaultMessage | server/epicalyx.ts:321 | the violation's message, followed by `\n\tat '<path>'` exactly when the path is not empty |
| Failures.ValidationFailure | server/epicalyx.ts:314-323 | nothing is thrown exactly when the value is valid; a rejection throws a USER_FAULT with the first violation; a rejection with no violations raises the TypeError of reading `errors[0]` |
| Failures.ValidationReply | server.ts:109-115 | a rejection reaches the wire as a USER_FAULT with the first violation's message; a rejection with no violations reaches it as a redacted INTERNAL_ERROR |
| EpicalyxServer.VerifyMessage | server/epicalyx.ts:296-312 | a frame is dropped exactly when it is not JSON, its `epicalyx` is not "1.0", or its `type` is not a string; otherwise it is kept unchanged |
| EpicalyxServer.Slashed | server/epicalyx.ts:243-245 | the name is '/'-prefixed, and is unchanged when it already starts with '/' |
| EpicalyxServer.RouteFor | server/epicalyx.ts:240-249 | a method requested under its exact registered name routes with no path parameters; any other name routes exactly when `matchPath` matches the '/'-prefixed forms, and then uses that match's parameters |
| EpicalyxServer.NoticesFor | server/epicalyx.ts:268-278 | one call per method-error observer, in order, each with the same report |
| EpicalyxServer.Invoke | server/epicalyx.ts:253-256 | the listener's outcome stands unless the descriptor is truthy and the validator rejects; then the listener is not run and the throw is that violation's USER_FAULT, or an INTERNAL_ERROR when the validator lists no violation |
| EpicalyxServer.FalsyDescriptorSkipsValidation | server/epicalyx.ts:254 | a null, false, 0 or "" descriptor answers exactly as no descriptor does |
| EpicalyxServer.AnswerFor | server/epicalyx.ts:229-293 | a registration answers only when its route matches, with the request's id. Success sends the value, or null when it is falsy, and makes no observer calls. A throw of null or undefined gives no answer at all; any other throw sends `result: null` with the normalised error, and every observer is called exactly when the code is INTERNAL_ERROR |
| EpicalyxServer.ValidationFailureSkipsHandler | server/epicalyx.ts:253-256 | with a truthy descriptor, a failed validation decides the answer whatever the listener would do; there is an answer, and with a violation it is that violation's USER_FAULT |
| EpicalyxServer.ExactMatchEmptyPathParams | server/epicalyx.ts:240-262 | under the exact name, the listener gets empty path parameters and its value is sent |
| EpicalyxServer.ListenerAnswer | server/epicalyx.ts:196-199 | a listener answers only a frame read as a request while its client is in the table, and then exactly as the registration answers that request |
| EpicalyxServer.SentOf | server/epicalyx.ts:251 | the replies sent are the answers' responses, in order |
| EpicalyxServer.NullFrameNoReplies | server/epicalyx.ts:167-170 | a frame that fails verification is handed to the listeners as null, and none of them replies |
| EpicalyxServer.AbsentClientNoReplies | server/epicalyx.ts:237-238 | a request for a client that has left the table gets no reply |
| EpicalyxServer.FanOut | server/epicalyx.ts:196-200 | a request gets one reply from each registration whose pattern routes its name and whose listener does not throw null or undefined, all under the request's id; there is no reply when there is no such registration |
| EpicalyxServer.CloseLife | server/epicalyx.ts:146-153 | close (with the grace timer cleared) leaves the table, closes the socket, stops both timers, and runs the callbacks once more |
| EpicalyxServer.DoubleCloseAsWritten | server/epicalyx.ts:146-161 | as written, ping then peer close then the grace timer runs the close callbacks twice |
| EpicalyxServer.RunKeepsInvariant | server/epicalyx.ts:146-177 | with the corrected close, every run of keepalive events keeps the rule that the callbacks run once per table exit and that a session out of the table has no live socket or timers |
| EpicalyxServer.CloseRunsAtMostOnce | server/epicalyx.ts:146-177 | from acceptance, the callbacks run at most once, and exactly once when the session has left the table |
| EpicalyxServer.Eviction | server/epicalyx.ts:156-177 | a peer that misses the pong deadline is evicted with one callback run; one that answers the ping stays |
| EpicalyxServer.HookCallsFor | server/epicalyx.ts:208-226 | one call per `onClientAdded` hook, in registration order, each with the new client's context |
| EpicalyxServer.Server.Middleware | server/epicalyx.ts:84-93 | the support path is answered with version "1.0" and the docs; any other path becomes a socket exactly when the pattern matches its path and query, with that match; anything else is passed on |
| EpicalyxServer.Server.OnClientAdded | server/epicalyx.ts:71-73 | the hook is appended |
| EpicalyxServer.Server.OnMethodError | server/epicalyx.ts:79-81 | the observer is appended |
| EpicalyxServer.Server.Accept | server/epicalyx.ts:123-162 | the fresh id is filed with a new session whose ping interval runs and whose callback and listener lists are empty; then every hook is called with its context, in order |
| EpicalyxServer.Server.RegisterMethod | server/epicalyx.ts:189-206 | while the client is in the table, a listener for the pattern is appended and its handle returned; otherwise nothing is registered |
| EpicalyxServer.Server.ValidateParams | server/epicalyx.ts:204 | the descriptor replaces that registration's descriptor, so a falsy one switches validation off again, and nothing else changes |
| EpicalyxServer.Server.OnClose | server/epicalyx.ts:218-223 | the callback is queued while the client is in the table, and otherwise runs at once |
| EpicalyxServer.Server.CloseContext | server/epicalyx.ts:210-215 | only the socket is closed, and only while the client is in the table; the code and reason are not used |
| EpicalyxServer.Server.Close | server/epicalyx.ts:146-153 | the callbacks run in order, the client leaves the table, and both timers stop |
| EpicalyxServer.Server.PingTick | server/epicalyx.ts:156-161 | the grace timer is armed; the interval fires only while it runs and after the previous grace timer has fired or been cleared |
| EpicalyxServer.Server.Pong | server/epicalyx.ts:173-174 | the grace timer is cleared |
| EpicalyxServer.Server.GraceElapsed | server/epicalyx.ts:159-161 | close runs: the callbacks run and the client is evicted |
| EpicalyxServer.Server.PeerClosed | server/epicalyx.ts:175-177 | close runs on the close event |
| EpicalyxServer.Server.ReceiveFailed | server/epicalyx.ts:179-185 | only the socket is closed |
| EpicalyxServer.Server.HandleMethodReq | server/epicalyx.ts:229-293 | it handles the request exactly when the client is present and the registration answers, and then sends exactly the answer's reply and makes its observer calls; otherwise it sends nothing and calls no observer |
| EpicalyxServer.Server.RunListener | server/epicalyx.ts:196-200 | a listener replies only to a verified `method-req` |
| EpicalyxServer.Server.ReceiveText | server/epicalyx.ts:165-170 | the verified frame goes to every listener in registration order; the socket receives exactly their replies and the observers exactly their calls |
| TransportServer.NotFoundMessage | server.ts:146 | `Method '<name>' was not found` |
| TransportServer.FirstFailure | server.ts:65 | nothing fails exactly when every validator accepts; otherwise it is the failure of the first validator that rejects |
| TransportServer.SlotReply | server.ts:63-104 | there is no reply exactly when null or undefined was thrown; a reply has the request's id; success passes the result through unchanged, with no error; any other throw gives null and the normalised error |
| TransportServer.RejectedBeforeHandler | server.ts:64-67 | a rejecting validator decides the reply without the listener, and there is a reply, an error |
| TransportServer.FirstRejectionReported | server.ts:108-116 | the first rejecting validator's first violation reaches the wire as a USER_FAULT |
| TransportServer.Server.SupportsResponse | server.ts:41-42 | the support body carries the version and the server's docs |
| TransportServer.Server.OnClientAdded | server.ts:165-167 | the hook is appended |
| TransportServer.Server.HandleNewClient | server.ts:39-129 | for a socket accepted on a path the pattern matches (`canAcceptSocket`), a connection with empty registries and that match as its parameters is made, and every hook runs once, in order |
| TransportServer.Connection.RegisterClient | server.ts:52-54 | the id is appended to the server's client list with this connection |
| TransportServer.Connection.OnClose | server.ts:56-58 | the callback is appended |
| TransportServer.Connection.RegisterMethod | server.ts:60-63 | the name now leads to a new slot with no validators, replacing an earlier registration of that name |
| TransportServer.Connection.ValidateParams | server.ts:107-117 | the descriptor goes at the end of that slot's chain |
| TransportServer.Connection.RunValidators | server.ts:65 | running the chain in order gives the first failure |
| TransportServer.Connection.OnMessage | server.ts:131-155 | unparseable or null text throws; a wrong version or a non-request gets no reply; an unknown name gets METHOD_NOT_FOUND with the request's id; a known name gets exactly its slot's reply, if it has one |
| TransportServer.Connection.Closed | server.ts:158-160 | every close callback runs, in order |
| Status.NatText | client.ts:21-22 | decimal digits with no leading zero |
| Status.NatTextInjective | client.ts:21-22 | different numbers render differently |
| Status.IntTextInjective | client.ts:36 | different integers render differently |
| Status.SecondsText | client.ts:21 | whole seconds render as their number, e.g. 3000 ms as "3" |
| Status.RetryMessage | client.ts:22 | the texts for 1000 ms and for 3000 ms, the default |
| Status.RetryMessagePlural | client.ts:22 | "second" is singular exactly at 1000 ms |
| Status.UnknownCodeKey | client.ts:36 | an unknown code's text is "Unknown code: " followed by the code |
| Status.KnownCodeKey | client.ts:24-34 | every known code can be read back from its text |
| Status.StatusTextInjective | client/connection.ts:28-45 | no two codes share a text |
| Status.ProjectionsAgree | client.ts:17-37 | `connected` holds exactly when the text is "Connected!" and `isOff` exactly when it is "Not connected."; never both |
| Status.ProbeUrl | client.ts:74-75 | the probe goes to https exactly for a wss: URL, on the same host, at the support path |
| Status.Probe | client.ts:77-94 | the server responds exactly when any response came; it supports Epicalyx exactly when the response was ok and its JSON body says "1.0", and then the docs are the body's |
| Status.ProbeStatus | client.ts:96-98 | -3 exactly without a response, 2 exactly with support, and otherwise -4 |
| Status.ProbeOfSupportsResponse | server.ts:41-42 | a server's own support body makes the probe succeed with its docs |
| Status.RetryDelay | client/connection.ts:159-161 | an absent or zero `retryTimeout` falls back to 3000 ms; any other value is used as given |
| Calls.SettlementOf | client/epicalyx.ts:24-27 | a call rejects with `error` exactly when it is truthy, and otherwise resolves with `result` |
| Calls.Settle | client.ts:169-172 | a promise keeps its first settlement; other calls are untouched |
| Calls.SettlementOfEncoded | client.ts:169-172 | a server's response rejects with the encoded error exactly when it carries one, and otherwise resolves with the result |
| Calls.ParseDown | client.ts:223-241 | a message is dropped exactly when it is not JSON or its version is not "1.0"; otherwise it is kept unchanged |
| Calls.ParseDownEncoded | client.ts:235 | every downward message a server encodes passes the version check |
| TransportClient.CallWhileDisconnectedAsWritten | client.ts:174-194 | as written, a call before any transport rejects, and one made after `turnOff` is sent twice |
| TransportClient.EpicalyxClient.constructor | client.ts:7-41 | off, with no URL and no transport, and nothing pending; the timeout is 3000 |
| TransportClient.EpicalyxClient.TurnOff | client.ts:155-160 | reconnects are enabled as asked, the transport is closed if any, and the status is 0 |
| TransportClient.EpicalyxClient.SetUrl | client.ts:43-55 | the same URL changes nothing; a connected client first turns off with reconnects on; then an invalid URL gives -1 and a non-ws scheme -2, both keeping the old URL; a ws:/wss: URL is adopted |
| TransportClient.EpicalyxClient.BeginCheckSupport | client.ts:65-79 | with no URL it throws; otherwise the status is 1 and the probe is requested at the probe URL |
| TransportClient.EpicalyxClient.FinishCheckSupport | client.ts:96-105 | the status follows the findings, which are returned |
| TransportClient.EpicalyxClient.BeginConnect | client.ts:107-120 | with no URL it throws; otherwise a connected client is turned off, reconnects are enabled, the status is 3, and a transport is requested |
| TransportClient.EpicalyxClient.Opened | client.ts:129-152 | while reconnects are enabled the transport is adopted, and while the race is on the status becomes 4 and waiting calls are flushed in order; otherwise the transport is closed |
| TransportClient.EpicalyxClient.Failed | client.ts:143-151 | during the race, the status is -5 and a reconnect is scheduled; afterwards nothing happens |
| TransportClient.EpicalyxClient.TimedOut | client.ts:141-151 | the status is -5 and a reconnect is scheduled |
| TransportClient.EpicalyxClient.TransportClosed | client.ts:125-128 | the status is 5 and a reconnect is scheduled |
| TransportClient.EpicalyxClient.ReconnectFired | client.ts:206-210 | `connect` runs exactly when reconnects are enabled |
| TransportClient.EpicalyxClient.CallMethod | client.ts:165-196 | (corrected) the id is added to the table; the request is sent at once when connected, and otherwise on the next connection; every method keeps `EachCallOnce`: each call in the table has exactly one request, written or waiting, and no request is written twice |
| TransportClient.EpicalyxClient.HandleMessage | client.ts:212-221 | a supported `method-res` for a pending id settles that call by its `error`; anything else changes nothing |
| ClientConnection.DeliveriesTo | client/connection.ts:176 | one call per listener, in registration order |
| ClientConnection.ClosedStatus | client/connection.ts:151-158 | 0 exactly without a retry; -5 exactly for a retried connection error; 5 exactly for any other retried close |
| ClientConnection.Connection.constructor | client/connection.ts:17-49 | off, with no socket, empty docs, and no listeners or messages |
| ClientConnection.Connection.OnMessage | client/connection.ts:65-67 | the listener is appended |
| ClientConnection.Connection.StartProbe | client/connection.ts:118-121 | the status is 1; it throws exactly when the URL does not parse; otherwise the probe goes to the probe URL |
| ClientConnection.Connection.CheckSupport | client/connection.ts:113-121 | the status is 1; it throws exactly when the URL does not parse; otherwise the probe is requested |
| ClientConnection.Connection.TurnOn | client/connection.ts:51-56 | it starts only when off; then it probes, throwing on an unparseable URL |
| ClientConnection.Connection.FinishProbe | client/connection.ts:142-148 | the status follows the findings, the docs are kept and the support flag returned; a `turnOn` probe then connects whatever the findings |
| ClientConnection.Connection.Connect | client/connection.ts:88-89 | a new socket replaces the current one, which is not closed |
| ClientConnection.Connection.TurnOff | client/connection.ts:58-63 | an off client is untouched; otherwise the status is 0 and the socket, if any, is closed |
| ClientConnection.Connection.SendMessage | client/connection.ts:69-86 | sent at once when connected; otherwise queued for the next connection |
| ClientConnection.Connection.SocketOpened | client/connection.ts:100-102 | the status is 4 and the queued messages are sent in order |
| ClientConnection.Connection.Closed | client/connection.ts:151-162 | the policy decides: without a retry the status is 0; with one it is -5 or 5 and a retry is scheduled |
| ClientConnection.Connection.SocketErrored | client/connection.ts:104-106 | `closed` with ERROR_CONNECT and its fixed reason |
| ClientConnection.Connection.SocketClosed | client/connection.ts:108-110 | `closed` with CONNECTION_CLOSED and its fixed reason |
| ClientConnection.Connection.RetryFired | client/connection.ts:159-161 | `connect` runs whatever the status |
| ClientConnection.Connection.SocketMessage | client/connection.ts:168-177 | unparseable or null text throws; a `connection-closing` closes the socket, goes through `closed` with its code and reason, and reaches no listener; anything else reaches every listener in order |
| ConnectionClient.EpicalyxClient.constructor | client/epicalyx.ts:12-18 | a fresh connection whose only listener is the client's own |
| ConnectionClient.EpicalyxClient.OnMessage | client/connection.ts:65-67 | an application listener is appended after the client's own |
| ConnectionClient.EpicalyxClient.CallMethod | client/epicalyx.ts:20-39 | the id enters the table and the request goes through `sendMessage` |
| ConnectionClient.EpicalyxClient.HandleMessage | client/epicalyx.ts:41-48 | a `method-res` for a known id settles that call by its `error`, with no version check; anything else changes nothing |
| ConnectionClient.EpicalyxClient.SocketMessage | client/epicalyx.ts:15-17 | the connection handles the text; a message passed on reaches the own listener and settles its call |
| ConnectionClient.ResponseSettlesCall | client/epicalyx.ts:24-27 | a server's response settles the call as the server meant |
| Protocol.RequestReachesServer | server/epicalyx.ts:296-304 | a client's request passes frame verification and is read back unchanged |
| Protocol.MethodCallRoundTrip | server/epicalyx.ts:229-293 | a routing registration replies exactly when the caller is to get a settlement; the reply passes the client's check, carries the request's id, and settles with the listener's value (null when falsy) or rejects with the encoded error |

## Left out

- Transports are not modelled. This covers the Deno and DOM WebSocket bindings (`ws/`), oak and its CORS middleware, and `listen`. The older server is modelled from the moment its transport has accepted a socket and reports frames and closes.
- Concurrency is not modelled. Handlers are pure functions that return or throw, so the model does not capture interleavings of awaited listeners or replies that finish out of order.
- Logging is left out: `console.warn`, `console.error` and `console.log` are not modelled.
- A thrown null or undefined makes both servers' catch blocks throw while reading `e.code`, so nothing is sent (`Failures.ErrorReply` is None). The promise rejection this leaves unhandled, and what the runtime does with it, is not modelled.
- A thrown `message` that is undefined is modelled as null. `JSON.stringify` leaves the key out instead, and a client reading it sees undefined.
- The server does not check the type of a request's `id` or `method`. Requests where either is not a string are treated as not being requests (`Wire.ReadMethodReq`), and JavaScript's behaviour on such values is not modelled.
- JSON numbers are integers, and undefined is read as null. Non-integer and huge timeouts are outside the model.
- Binary frames, pings and other non-text events are ignored by the engines. They are not modelled beyond pong and close.
- `sock.ping()` on a socket that has already closed is assumed not to throw.
- The `close` method of a context in server/epicalyx.ts, and a failed receive, close the socket as a LocalClose. No close event is modelled after a local close (`PeerClosed` requires an open socket), so such a session stays in the table. Its ping interval keeps running, and its close runs only when a grace timer fires.
- EpicalyxServer.Server.PingTick: requires the previous grace timer to be over. The 1 s grace timer always fires or is cleared before the 10 s interval fires again, so the timer that `timeout = setTimeout(...)` would orphan is not modelled.
- The `onClientAdded` hooks of server/epicalyx.ts are opaque ids, and the model records their calls. What a hook does with its context is up to any caller of `Server.RegisterMethod`, `Server.OnClose` and `Server.CloseContext`, at any time. The old server's context operations are open to any caller in the same way.
- `listen` and `transmit` are left out: both are empty stubs in client.ts, and there is no listen or transmission handling in any core file. Only their wire formats are modelled.
- `onClientAddedError` observers are left out because they are never called. Exceptions thrown by `onClientAdded` hooks are not modelled, and hooks are opaque ids.
- The `derive`/`storable` stores are assumed to call a subscriber once at once on subscribing, with `initial` set. After that they call it when, and only when, the value changes, in subscription order. The storable library is not part of this model.
- TransportClient.CallWhileDisconnectedAsWritten: assumes that a subscriber which throws on its first run is not left subscribed.
- TransportClient.EpicalyxClient: `connected.set(false)` in `turnOff` is not modelled separately, because `connected` is derived from the status code.
- TransportClient.EpicalyxClient: `timeout` is fixed at 3000 ms, because nothing in the core assigns it.
- TransportClient.EpicalyxClient: `getCurrentUrl` returns the field and is not modelled.
- ClientConnection.Connection: `pathExtension` is always empty in the core, so sockets are opened on the URL as given.
- ClientConnection.Connection.SocketMessage: non-string data is only warned about and is left out. `betterErrorsJsonParse` is reduced to whether parsing threw.
- ConnectionClient.EpicalyxClient: `extends ClientConnection` is modelled as composition. The connection is a field, and the inherited methods are called on it.
- Status.SecondsText: renders only integer milliseconds. It does not model JavaScript's rendering of non-integer or exponent seconds.

## Findings

| source | as written | input that shows it | evidently intended | confidence | as-written member | corrected member |
|---|---|---|---|---|---|---|
| server/epicalyx.ts:146-161 | `close` clears the ping interval but not the pong grace timer `timeout` | a ping, then the peer closes within 1 s, then the grace timer fires: close runs twice and the close callbacks run twice | close clears the grace timer too, so the callbacks run at most once | not executed | EpicalyxServer.DoubleCloseAsWritten | EpicalyxServer.CloseRunsAtMostOnce |
| client.ts:175-192 | the `connected` subscriber of `callMethod` has no early return when not connected | a call before any connection throws on the missing transport, so it rejects; a call after `turnOff` sends on the closed transport, then again on reconnect | send once: at once when connected, otherwise on the next connection | not executed | TransportClient.CallWhileDisconnectedAsWritten | TransportClient.EpicalyxClient.CallMethod |

The rest of the model uses the corrected behaviour.

- `EpicalyxServer.Server.Close` clears the grace timer (`EpicalyxServer.CloseLife`).
- `TransportClient.EpicalyxClient.CallMethod` sends once, and every method keeps the invariant `EachCallOnce`.

## Notes where the code and its description differ

The model follows the code in each case.

- server/epicalyx.ts never sends `METHOD_NOT_FOUND`. Every registration whose pattern routes a name replies, so a request can get several replies, or none at all (`EpicalyxServer.FanOut`).
- A context's `close(params)` in server/epicalyx.ts ignores its code and reason, and sends no `connection-closing`.
- In client/connection.ts:
  - Incoming messages are not checked for their `epicalyx` version.
  - A `turnOff` does not cancel a scheduled retry.
  - A retry connects whatever the status is then.
  - After `turnOff` closes the socket, the socket's close event still goes through `shouldRetryConnection`. A policy that retries sets the status to 5 and schedules a reconnect (`TurnOff`, then `SocketClosed`).
- Neither client removes a settled call from its table. A repeated response is ignored only because a promise settles once (`Calls.Settle`).
