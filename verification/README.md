# node-fast server core in Dafny

This project models the server side of node-fast's RPC protocol (`lib/fast_server.js`). That covers:

- the FastServer's handler registry;
- its table of client connections;
- its cyclic connection-id counter;
- its shutdown flag and its counters of ignored messages;
- the state machine of each connection and of each RPC request, and the response messages a request produces.

Modules, one per file:

- `Messages` (`messages.dfy`): decoded Fast messages, JSON values, the errors the server raises, and the validation of a call's payload (`m.name`, `d`).
- `ConnIds` (`conn_ids.dfy`): the cyclic connection-id counter (`FS_MAX_CONNID = 2^30`).
- `Requests` (`requests.dfy`): a request (FastRpcServerRequest) and a registered handler (FastRpcHandler) as values, with requestDisconnect both as written and as corrected.
- `Responses` (`responses.dfy`): requestMakeMessage and the response encoder's `_transform` and `_flush`, as functions.
- `Connections` (`connections.dfy`): a connection (FastRpcConnection) as a value, plus the following.
  - Its invariants: started = completed + pending, well-formed pending entries, and the draining/destroyed lifecycle.
  - Pure functions that specify each update the server makes to a connection.
  - Lemmas on what those updates preserve and achieve.
- `Server` (`server.dfy`): the FastServer as a class, plus supporting functions and lemmas.
  - The class holds the handler map, the connection map, the id counter, the shutdown flag and the three ignored-message counters, with one method per FastServer operation.
  - Each method is proved against the specification functions: its postcondition gives the new tables in terms of them, and it keeps the invariant `Valid()`.
  - `Valid()` includes every connection's invariant and a cross-connection one for the handlers (`HandlerCounts`): each handler has started exactly as many calls as it has completed, plus those still pending and bound to it on any connection.
  - Outside the class: the dispatch decision of onMessage (`Dispatch`), the tables after onMessage (`Received`), and lemmas on each outcome.

A socket is represented by two things: its connection's `destroyed` flag, and the sequence of messages written to the connection's message encoder (`outbound`).

What an RPC handler does with its context is modelled as three operations: `HandlerWrite` (write an object), `HandlerEnd` (end the stream) and `HandlerFail` (`fail(err)`).

Two ghost fields record history:

- `nallocs`: the number of ids allocated so far.
- `retired`: the final value of every connection removed from the table.

These let the model state two things: the counter's value is the allocation count modulo 2^30, and a connection is removed only once it has drained.

## Model

| member | source | states |
|---|---|---|
| Messages.ParseCall | lib/fast_server.js:496-509 | a payload is a well-formed call exactly when `m` is an object whose `name` is a non-empty string and `d` is an array; the call then carries that name and that argument array |
| Messages.BadData | lib/fast_server.js:501-508 | a malformed call payload fails its request with a FastError whose reason is `bad_data` |
| Messages.BadMethod | lib/fast_server.js:516-523 | a call to an unregistered method fails its request with a FastError whose reason is `bad_method` and whose message quotes the method name |
| Messages.UnexpectedStatus | lib/fast_server.js:443-448 | an END message from the client terminates the connection with a FastProtocolError whose reason is `unexpected_status` |
| Messages.DuplicateMsgid | lib/fast_server.js:473-479 | a DATA message reusing a pending msgid terminates the connection with a FastProtocolError whose reason is `duplicate_msgid` |
| Messages.ShuttingDown | lib/fast_server.js:194 | shutdown terminates connections with a plain VError that carries no reason (the same error connCreate means to use at line 284) |
| ConnIds.NextConnId | lib/fast_server.js:325-330 | the id handed out (also the counter's new value) is the old value plus one, modulo 2^30 |
| ConnIds.IdAfter | lib/fast_server.js:325-330 | the counter stays below 2^30 however many ids are allocated |
| ConnIds.IdAfterIsModulo | lib/fast_server.js:325-330 | the n-th allocation on a fresh server yields n modulo 2^30 |
| ConnIds.IdAfterIsZeroOnlyAtWrap | lib/fast_server.js:251-258 | the id 0, which connCreate refuses, comes up exactly at every 2^30-th allocation |
| ConnIds.IdsDistinctWithinCycle | lib/fast_server.js:325-330 | any 2^30 consecutive allocations hand out pairwise distinct ids |
| Requests.NewRequest | lib/fast_server.js:845-874 | a new request carries the message's msgid and is INIT, with no method, arguments, handler or error, and not disconnected |
| Requests.DisconnectAsWritten | lib/fast_server.js:624-646 | requestDisconnect as written fails an assertion exactly for an INIT request, or for a RUNNING request that already has an error or a blackhole |
| Requests.Disconnect | lib/fast_server.js:624-646 | leaves a request's state, error, msgid, method and handler alone; blackholes a RUNNING request; leaves other requests and already disconnected ones unchanged; agrees with the as-written version wherever that passes its assertions |
| Requests.DisconnectIdempotent | lib/fast_server.js:624-646 | disconnecting twice is the same as disconnecting once |
| Requests.DisconnectTwiceAsWritten | lib/fast_server.js:624-646 | a RUNNING request passes requestDisconnect once, but as written a second requestDisconnect on it fails the blackhole assertion |
| Requests.NewHandler | lib/fast_server.js:708-719 | a new handler records its method name and starts with zero started, completed and failed calls |
| Requests.Named | lib/fast_server.js:512-514 | a validated request records the call's method name and argument list, and nothing else about it changes |
| Requests.Run | lib/fast_server.js:526-535 | a request handed to its handler is RUNNING and bound to the handler of its own method, nothing else changes, and it can then be disconnected once |
| Requests.Failed | lib/fast_server.js:590-591 | requestFail records the error and marks the request COMPLETE, leaving the rest alone; a later requestDisconnect passes and leaves it unchanged |
| Requests.Completed | lib/fast_server.js:609-612 | requestComplete marks a RUNNING request COMPLETE with no error recorded, leaving the rest alone; a later requestDisconnect passes and leaves it unchanged |
| Requests.CountStart | lib/fast_server.js:531-532 | a handler's start count goes up by one and its other counters are unchanged |
| Requests.CountCompletion | lib/fast_server.js:663-670 | a handler's completion count goes up by one, its error count goes up by one exactly for a failed request, and errors never exceed completions |
| Responses.ErrorDatum | lib/fast_server.js:955-964 | the ERROR datum carries the error's name and message, its context or `{}` when the context is falsy, and `ase_errors` exactly when the error has one |
| Responses.MakeMessage | lib/fast_server.js:950-984 | a response carries the request's msgid, the given status and `m.name` equal to the request's method (null before validation); `d` is the items for DATA, `[]` for END and the error datum for ERROR |
| Responses.Transform | lib/fast_server.js:926-938 | an object written to a RUNNING request becomes one DATA message whose `d` is `[item]`; a write once the request has left RUNNING, or of a non-object, is refused |
| Responses.Flush | lib/fast_server.js:940-945 | ending the output produces one END message with `d = []`, the request's msgid and method |
| Responses.FailureMessage | lib/fast_server.js:584-603 | requestFail writes one ERROR message with the request's msgid and the error datum |
| Connections.NewConn | lib/fast_server.js:733-754 | a new connection has nothing pending, every counter at 0 and no terminal cause, so it meets the counter and lifecycle invariants; unlike the source, which initialises `fc_nfailed` but never `fc_nerrors`, its failed-request count starts at 0 |
| Connections.Start | lib/fast_server.js:488-495 | onMessage's insert adds the request under its msgid, keeps the other entries and raises nstarted by one, so started = completed + pending holds again for a fresh msgid |
| Connections.Send | lib/fast_server.js:600-601 | a write to the message encoder appends exactly that message to the connection's output and changes nothing else (the encoder pushes at 935-936 and 942-943 are the same write) |
| Connections.Cleanup | lib/fast_server.js:655-670 | requestCleanup removes the request's msgid from pending and leaves the other entries, counts one completion and, for a failed request, one error, keeps started = completed + pending, and changes nothing else |
| Connections.DisconnectAll | lib/fast_server.js:355-364 | connDisconnectRequests keeps the pending msgids, applies requestDisconnect to each entry (so every RUNNING request ends up blackholed), destroys the socket, and changes nothing else |
| Connections.Terminate | lib/fast_server.js:341-345 | connTerminate records the server error, disconnects every RUNNING request and destroys the socket, keeping the pending msgids and everything else |
| Connections.Drained | lib/fast_server.js:370-397 | connDrain removes the connection exactly when nothing is pending; otherwise the connection stays, marked draining, otherwise unchanged |
| Connections.Retire | lib/fast_server.js:386-395 | a removed connection's socket is destroyed by connDrain exactly when no error had been recorded, and nothing else changes |
| Connections.Terminated | lib/fast_server.js:336-350 | connTerminate is a no-op once a server error is recorded; otherwise it removes the connection exactly when nothing is pending, and a connection that stays is draining with the error recorded and its socket destroyed |
| Connections.AfterCleanup | lib/fast_server.js:651-676 | after requestCleanup the connection is removed exactly when it was draining and the cleaned-up request was its last one; otherwise it stays with that msgid gone and one more completion |
| Connections.Rejected | lib/fast_server.js:486-525 | a request created by onMessage and failed at once: the connection is removed only if it was draining with nothing else pending; otherwise started, completed and errors each go up by one and one ERROR message for the request is written |
| Connections.DisconnectAllBindings | lib/fast_server.js:355-364 | connDisconnectRequests leaves every pending request bound to the handler it was bound to |
| Connections.ReplaceBindings | lib/fast_server.js:584-615 | completing, failing or disconnecting a request in place keeps every request's handler binding |
| Connections.StartUnboundBindings | lib/fast_server.js:486-495 | inserting a request that has no handler yet keeps every handler binding |
| Connections.CleanupUnboundBindings | lib/fast_server.js:655-670 | cleaning up a request that never reached a handler keeps every handler binding |
| Connections.CoreOkMonotone | lib/fast_server.js:161-178 | registering more handlers keeps every connection's counter invariant |
| Connections.CoreOkFrame | lib/fast_server.js:292-318 | recording a terminal cause, draining, destroying the socket or writing a message keeps started = completed + pending and the pending entries well-formed |
| Connections.StartKeepsCounters | lib/fast_server.js:486-493 | inserting a fresh request while nstarted goes up keeps started = completed + pending and the lifecycle invariant |
| Connections.ReplaceKeepsCounters | lib/fast_server.js:584-615 | replacing a pending request by its COMPLETE or disconnected version keeps the counter and lifecycle invariants |
| Connections.CleanupKeepsCounters | lib/fast_server.js:651-676 | requestCleanup keeps started = completed + pending, counts an error exactly for a failed request, and leaves a draining connection ready to drain again |
| Connections.DisconnectKeepsCounters | lib/fast_server.js:355-364 | disconnecting any subset of a connection's requests after an error keeps its counter invariant |
| Connections.DisconnectAllKeepsCounters | lib/fast_server.js:355-364 | connDisconnectRequests keeps the counter invariant and the pending msgids, and every pending request ends up disconnected |
| Connections.DrainKeepsInvariant | lib/fast_server.js:370-397 | connDrain with requests pending only marks the connection draining (and then started > completed); with none it removes the connection with started = completed and its socket destroyed, by connDrain itself only when no error was recorded |
| Connections.TerminatedEffect | lib/fast_server.js:336-350 | connTerminate does nothing once a server error is recorded; otherwise it records the error, disconnects every RUNNING request and destroys the socket; it never creates or completes a request, and it removes the connection exactly when nothing is pending |
| Connections.RejectedEffect | lib/fast_server.js:486-525 | a bad request is started and failed in one step: pending unchanged, started, completed and errors each up by one, exactly one ERROR message written, and the connection never removed |
| Connections.CleanupOfLastRemoves | lib/fast_server.js:651-676 | a draining connection is removed when its last pending request is cleaned up, and not before |
| Connections.JsIncrement | lib/fast_server.js:667 | JavaScript's `++` yields a number exactly when applied to a number, one more than it |
| Connections.CleanupErrorsAsWritten | lib/fast_server.js:666-667 | as written, requestCleanup leaves the connection's error count alone for a request that did not fail, and for a failed one yields a number only if the count already was one |
| Connections.ErrorCountAsWritten | lib/fast_server.js:666-667 | over any run of cleanups, the model's error count goes up by the number of failed requests, while the count as written, starting unset, stays unset until the first failure and is NaN from then on |
| Connections.UninitialisedCounterIsNaN | lib/fast_server.js:665-668 | a bad request on a new connection leaves the model's error count at 1, while the count as written, which the connection's constructor (lines 745-751) never initialises, becomes NaN and stays NaN |
| Server.Dispatch | lib/fast_server.js:408-542 | the decision for a message: drop for an unknown connection, or one that read end-of-stream or saw a socket error; ignore a client ERROR; terminate for END (unexpected_status) or a pending msgid (duplicate_msgid); fail with bad_data when the payload is malformed, or bad_method when the method is unregistered; otherwise start the call |
| Server.Received | lib/fast_server.js:408-542 | onMessage changes no connection but the one the message arrived on, never adds or removes a handler, only appends to the removed-connection record, changes the handlers only to start a call, and changes nothing for an unknown connection |
| Server.DroppedChangesNothing | lib/fast_server.js:418-469 | a dropped or ignored message leaves the connections, the handlers and the removed-connection record unchanged |
| Server.ViolationCreatesNoRequest | lib/fast_server.js:439-481 | an END message or a reused msgid terminates the connection without creating a request: handlers, start count and pending msgids unchanged |
| Server.ValidCallStartsRequest | lib/fast_server.js:526-541 | a valid call leaves a new RUNNING request under its msgid, bound to its method's handler with its arguments; the handler's start count goes up by one and nothing is written |
| Server.CountsRegister | lib/fast_server.js:171-177 | a handler registered under a new name has no request bound to it yet, so the handler counts stay consistent |
| Server.BoundStart | lib/fast_server.js:488-495 | a new pending request is added to the requests bound to its own handler and to no other handler's |
| Server.BoundCleanup | lib/fast_server.js:655-660 | requestCleanup's delete removes the request from the requests bound to its handler, and it was bound to exactly that handler |
| Server.CountsStart | lib/fast_server.js:531-534 | starting a call on a handler (fh_nstarted++ with the request inserted) keeps every handler's started = completed + bound pending |
| Server.CountsCleanup | lib/fast_server.js:655-670 | a request being cleaned up with a handler finds that handler with more starts than completions, and counting the completion (fh_ncompleted++, fh_nerrors++ on failure) keeps every handler's count |
| Server.CountsPlace | lib/fast_server.js:370-397 | replacing a connection keeping its bindings, or removing it with nothing pending, keeps every handler's count |
| Server.TerminateCall | lib/fast_server.js:336-350 | connTerminate passes its argument assertions exactly when given a connection and then an Error, and then changes only that connection's entry, as `Terminated` says |
| Server.Created | lib/fast_server.js:251-286 | connCreate, corrected: the new connection is in the table afterwards exactly when the server is not shutting down, and no other entry changes |
| Server.ConnCreateAsWritten | lib/fast_server.js:279-285 | connCreate as written fails connTerminate's assertions exactly when the server is shutting down, and otherwise has the corrected effect |
| Server.SocketErrorThenClose | lib/fast_server.js:307-319 | on the server itself: after a RUNNING call sees a socket error, the request is still pending on a connection with no server error, and requestDisconnect as written fails on it, which is what close() then calls |
| Server.Closing | lib/fast_server.js:180-198 | after close() each terminated connection is what connTerminate makes of it (removed when nothing was pending) and the others are unchanged |
| Server.DisconnectPending | lib/fast_server.js:355-361 | the loop applies requestDisconnect to every pending request and to nothing else |
| Server.FastServer.constructor | lib/fast_server.js:133-157 | no handlers, no connections, counter 0, not closed, ignored-message counters 0 |
| Server.FastServer.RegisterRpcMethod | lib/fast_server.js:161-178 | a method not yet registered gets a handler with zero counters; the invariant, including every handler's counts, is kept |
| Server.FastServer.Close | lib/fast_server.js:180-198 | a second close() changes nothing; the first sets the flag and terminates every connection in the table with "server is shutting down", as `Closing` describes |
| Server.FastServer.TerminateAll | lib/fast_server.js:194-197 | the loop terminates every connection in the table, keeping the invariant |
| Server.FastServer.ConnCreate | lib/fast_server.js:251-286 | a connection is accepted under the freshly allocated id; after shutdown it is terminated at once, which removes it again; the table is what `Created` gives |
| Server.FastServer.OnConnectionEnd | lib/fast_server.js:292-301 | end-of-stream marks the connection ended and drains it |
| Server.FastServer.OnConnectionError | lib/fast_server.js:307-319 | a socket error is recorded, every pending request is disconnected, the socket destroyed, and the connection drained |
| Server.FastServer.AllocConnectionId | lib/fast_server.js:325-330 | the counter advances cyclically and the new value is returned; it stays equal to the allocation count modulo 2^30 |
| Server.FastServer.ConnTerminate | lib/fast_server.js:336-350 | the connection becomes what `Terminated` gives (a no-op once a server error is recorded), and any removed connection is recorded as drained |
| Server.FastServer.ConnDisconnectRequests | lib/fast_server.js:355-364 | the connection's pending requests are all disconnected and its socket destroyed; nothing else changes |
| Server.FastServer.ConnDrain | lib/fast_server.js:370-397 | the connection stays draining while requests are pending, and otherwise is removed and recorded as settled |
| Server.FastServer.OnMessage | lib/fast_server.js:408-542 | the outcome is `Dispatch`'s decision, exactly one ignored-message counter goes up for a dropped or ignored message, and the new tables are `Received`'s; the invariant is kept |
| Server.FastServer.OnOpenMessage | lib/fast_server.js:439-542 | on an open connection: END or a reused msgid terminates it, a client ERROR is counted and ignored, anything else is accepted as a new request; the outcome is `Dispatch`'s and the new tables `Received`'s |
| Server.FastServer.AcceptRequest | lib/fast_server.js:484-541 | a DATA message with a fresh msgid on an open connection is either failed (bad_data or bad_method) or started, as `Dispatch` and `Received` say |
| Server.FastServer.StartRequest | lib/fast_server.js:526-541 | the validated request is inserted RUNNING and bound to its handler, whose start count goes up by one, keeping started = completed + bound pending for every handler |
| Server.FastServer.RejectRequest | lib/fast_server.js:486-525 | the new request is inserted and failed at once; the handlers are unchanged |
| Server.FastServer.RequestFail | lib/fast_server.js:584-603 | the request becomes COMPLETE with the error, one ERROR message is written, and it is cleaned up, counting an error against its handler if it has one |
| Server.FastServer.RequestComplete | lib/fast_server.js:609-615 | a RUNNING request becomes COMPLETE and is cleaned up, counting a completion against its handler |
| Server.FastServer.RequestCleanup | lib/fast_server.js:651-676 | the COMPLETE request leaves pending, completions (and errors, for a failed request) are counted on the connection and its handler, and a draining connection is drained again; every handler keeps started = completed + bound pending |
| Server.FastServer.CleanupEntry | lib/fast_server.js:655-676 | requestCleanup's effect on the connection table and the removed-connection record |
| Server.FastServer.Push | lib/fast_server.js:935-936 | a message pushed to a connection's encoder: the connection becomes `Send`'s, the rest of the table is unchanged and the invariant holds |
| Server.FastServer.HandlerWrite | lib/fast_server.js:926-938 | a disconnected request's output is discarded; otherwise an object becomes one DATA message on the connection, and a non-object is refused with nothing written |
| Server.FastServer.HandlerEnd | lib/fast_server.js:940-945 | ending the output writes one END message unless the request was disconnected, then completes the request |
| Server.FastServer.HandlerFail | lib/fast_server.js:904-906 | `fail(err)` on the context fails the request with that error |

## Left out

- Node stream plumbing and flow control are not modelled: `pipe`/`unpipe`, high-water marks, `setImmediate`, `FastRpcConnectionDecoder`, `FastMessageHandler` and `NullSink`. They become direct calls and the request's `blackhole` flag.
- Each operation runs to completion before the next starts. The interleaving of stream events is not modelled.
- Logging is left out, and error text is reduced to an `Error` value. That value holds the name, the message, the `fastReason`, the legacy `context` and `ase_errors`.
- The context's `argv()` deep copy and its `requestId()`/`methodName()` accessors are read-only helpers and are not modelled.
- Socket summarisation is not modelled. Socket I/O is reduced to the `destroyed` flag and the `outbound` sequence of messages written to the connection's encoder.
- The wire codec, the client and `IdAllocator` are not part of this model.
  - `Server.FastServer.OnMessage` requires what the decoder guarantees: a non-zero connection id and a payload that is a non-null object.
- The QUEUED request state is never entered by the source, so it is not represented.
- The order in which a JavaScript object's keys are enumerated is not modelled. This affects the order of pending requests and of connections in `for-in` loops.
  - Each loop's result does not depend on that order. The only exception is the order in which `Server.FastServer.Close` appends removed connections to the ghost record.
- Server.FastServer.Close: states only that the old removed-connection record is a prefix of the new one, not in which order the connections it removes are appended.
- Server.FastServer.HandlerWrite, Server.FastServer.HandlerEnd, Server.FastServer.HandlerFail: these require the request to be still pending, that is RUNNING.
  - A handler that writes, ends or fails after its request completed is not modelled. The source throws in `_transform`, or fails requestCleanup's assertions.
  - requestFail itself has no state check.
- JavaScript numbers are modelled as unbounded integers (`Messages.Json.JNumber` holds an `int`), and msgids and counters as naturals. Non-integer numbers cannot be represented anywhere: not in payloads, not in an error's `context`, and not as msgids.
- `undefined` and `null` are both modelled as `JNull`. The exception is `ase_errors`, whose absence is kept apart.
- Server.FastServer.RegisterRpcMethod: the handler table is a map, while the source keeps handlers in a plain JavaScript object (lines 143, 171-174 and 515). The two differ for two method names only.
  - Registering `"__proto__"` sets the object's prototype instead of adding a property. Calls to that method then fail with bad_method, and a second registration is not refused. In the model the method is registered like any other.
  - Registering `"hasOwnProperty"` shadows the lookup used at lines 171 and 515, so every later registration and every later well-formed call throws. The model does not capture this.
  - Method names sent by clients behave the same in both, since only registered names are looked up.

## Findings

| source | as written | input that shows it | evidently intended | confidence | as-written member | corrected member |
|---|---|---|---|---|---|---|
| lib/fast_server.js:624-646 | requestDisconnect asserts that a RUNNING request has no blackhole yet, but connDisconnectRequests can run twice on one connection: the comment at lines 303-307 expects a socket error after a protocol error, and close() terminates connections that already saw a socket error | a connection with a RUNNING request sees a socket error; then close() calls connTerminate on it, which disconnects the already blackholed request again | a request already disconnected is left alone | high, not executed | Requests.DisconnectTwiceAsWritten, Server.SocketErrorThenClose | Requests.Disconnect |
| lib/fast_server.js:665-668 | requestCleanup increments `fc_nerrors`, which the FastRpcConnection constructor never initialises (it initialises `fc_nfailed` at line 750), so the count becomes NaN | any failed request, for instance a DATA message without `m.name` | the connection counts its failed requests from 0 | high, not executed | Connections.UninitialisedCounterIsNaN | Connections.NewConn, Connections.Cleanup |
| lib/fast_server.js:279-285 | connCreate after shutdown calls `connTerminate` with the error as its only argument, so connTerminate's `conn instanceof FastRpcConnection` assertion fails | a connection accepted after close() | the new connection is terminated with the shutdown error | high, not executed | Server.ConnCreateAsWritten | Server.FastServer.ConnCreate |
