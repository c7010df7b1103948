# A model of the netx RPC framework

netx lets a client and a server call each other over one TCP connection. This project models the parts
of it that have to work together for a call to mean what it says, and proves what callers, sessions and
interfaces can rely on. `dafny verify dfyconfig.toml` checks all of it.

## What is modelled

* **Calls in flight** (`TimedQueue`, `Requests`, `CallMachine`, `CallInvariant`, `CallTheorems`,
  `TokenCalls`, `CallProgress`, `Restarts`). The client object, its request manager and the server's token
  are classes, one method per actor step. The call machine interleaves those steps freely with FIFO channels
  that may lose frames, handlers that finish in any order, reconnects, a sweep that pops and fails entries in
  separate steps, and a clock in nanoseconds. `as_millis() as u32` is written out as a division and a remainder
  modulo 2^32. The machine's table is the one the classes' contracts speak about, and its uninterrupted
  sweep is shown to be the classes' sweep. Calls from server to client, whose steps are coarser, refine the
  same machine. `CallProgress` says what can still become of a call. `Restarts` adds client objects that
  follow one another on the same session.
* **Sessions** (`TokenManager`, `SessionMachine`, `SessionInvariant`, `SessionTheorems`, `SessionRaces`,
  `SessionLeaks`). The token manager is a class; the session machine runs any number of connection handlers
  through attached, serving, detached and queued (or failed), against a sweep whose check, removal and
  clearing of the controller are separate steps because the code awaits in between.
* **Passes over many tokens** (`Orphans`). The session machine with a table of pending calls per token, and
  the manager's pass: the requests of every token in the map first, then the disconnected sessions.
* **The wire** (`Wire`, `Framing`, `RetResults`, `Messages`). Little-endian fields, frames, every message
  builder of both sides as a method, and both receive loops over a reader whose bytes arrive in arbitrary
  chunks.
* **The handshake** (`PeerCheck`, `Handshake`, `ClientTraffic`, `ClientSession`). The server's check; every
  byte a client writes, on overlapping connections, with callers that may call at any time once a connection
  is open; the verdict a connecting client waits for, and the session id it keeps.
* **Interfaces** (`Builder`, `Transparency`). What the macros generate, read as meaning: a function list, a
  stub for each function and a first-match dispatcher; composed with the wire into a statement about whole
  remote calls, and with the call machine (`CallMeaning`) into one about whole runs.

## Assumptions that show up in the statements

* A caller's future is not dropped midway: in the call machine every caller can take its next step. A client
  call dropped between the map insert and the queue push would leave its entry unqueued.
* The serial counter stays below 2^63 (guard of `Draw`), and session ids drawn from the nanosecond clock are
  new (guard of `Create`).
* Serialised values are self-delimiting (`Builder.RoundTrips`); how they are serialised is opaque.
* Timeliness takes for granted that a sweep pass begins at least every `period` ms (`Prompt`).
* `data_rw` is not part of this model: fixed-width little-endian integers, one-byte booleans, and strings or
  buffers as a 32-bit length and bytes, which is what `read_string` reads.

## Where the code does less than one would expect

* A failing Disconnect function skips `peer_disconnect`. If no earlier disconnect of the session is still
  queued then, and nobody resumes it, its token is never reaped (`LeaksExactly`, `LeakIsForever`); an
  earlier disconnect still queued gets it reaped all the same (`FailedYetReaped`).
* An entry whose age reaches 2^32 ms is taken for a young one (`WrappedAgeIsMissed`); the exact condition is
  `SweepIsFullScanExactly`.
* A serving token can be reaped although its session never has two live connections: through an old handler
  that detaches after the client has reconnected (`StaleDetachReapsServing`, exactly when in
  `ServingOwnsPeerExactly` and `CondemnsServingExactly`), and through a resume that falls just before the
  sweep's check (`ResumeRaceReapsServing`, exactly when in `RemovalRaceExactly`).
* A token out of the map is never swept for request timeouts, so a call still pending on it waits for ever
  unless its answer comes. For calls begun before the disconnect this can happen exactly if the save time is
  below request timeout + pass period (`LossExactly`); for calls begun after a resume it always can
  (`ResumedCallIsLost`).
* A client that is closed and connected again loses its new connection when the old reader cleans up
  (`CleanTakesNewer`; never without a close: `CleansOwnOnly`).
* A session may already be gone when its handler queues the disconnect, because a dead socket counts as
  disconnected before the handler notices (`GoneBeforeEnqueue`).
* A result with 2^31 or more arguments is written with a count that the reader takes for negative
  (`ResultRoundTrip`).
* `is_connect` becomes true before the verify message is sent and before the framing mode is set. A message
  written in mode 0 is misread (`ReadsAsMeantExactly`), and the mode is never reset, so after a reconnect a
  call can precede the verify message and get the connection refused (`EarlyCallIsRefused`,
  `ReconnectedCallsEarly`). Callers that wait for the Connect function are safe (`ModeAgreement`).
* A restarted client that resumes its session draws the same serials again, and a handler begun for its
  predecessor answers on the new connection, so a new caller can get an old result (`NewCallerGetsOldReply`,
  exactly when in `StrayExactlyInRuns`).
* A returned value that cannot be serialised is dropped by `add_arg_buff`; the caller then sees an index
  error (`RpcTransparency`).
## Model

| member | source | states |
|---|---|---|
| `CallInvariant.StepKeepsInv` | netx_client/src/client/impl_client.rs:1226-1264 | one step of any actor, channel, handler, sweep or clock keeps the whole correlation invariant: serials in drawing order, senders unused and owned by their drawer, one place per request, sorted queue, nobody forgotten |
| `CallInvariant.RunInv` | netx_client/src/client/impl_client.rs:848-878 | the invariant holds in every state of every interleaving of callers, replies, timeouts, handlers and reconnects |
| `CallTheorems.OnePlaceOnly` | netx_server/src/server/impl_server.rs:361-415 | in every state of every run a serial is in at most one of request channel, handler, reply channel |
| `CallTheorems.ExecutedAtMostOnce` | netx_server/src/server/impl_server.rs:361-415 | in every run no serial is executed twice, and what is executed is the request issued under that serial |
| `CallTheorems.OutcomeIsOwn` | netx_client/src/client/impl_client.rs:1226-1264 | a two-way caller that gets a value gets what the execution of its own request produced; otherwise it was not connected, its send failed, or its own serial timed out; the duplicate-serial error never occurs |
| `CallProgress.FinishReplies` | netx_server/src/server/impl_server.rs:370-402 | in every run a handler that ends puts exactly one reply, under its caller's serial and with its result, on its token's connection if the call type is 1 or 2 and the token has one, and nothing otherwise |
| `CallProgress.CallCanSucceed` | netx_client/src/client/impl_client.rs:1226-1264 | in every run a two-way call about to begin, with client and token connected, can come to any result its handler gives, whatever else is in flight |
| `CallProgress.WaitingCanSucceed` | netx_client/src/client/impl_client.rs:1226-1264 | so can, from any state of any run, a waiting call whose request is on its way, being handled, or answered |
| `CallProgress.OneWaySucceeds` | netx_client/src/client/impl_client.rs:1267-1288 | a call of type 0 is done once it has been sent |
| `CallProgress.TimeoutComes` | netx_client/src/client/request_manager.rs:68-81 | once everything queued is overdue, a sweep tells a waiting caller that its own serial timed out |
| `CallProgress.WaitingTimesOut` | netx_client/src/client/request_manager.rs:68-81 | in every run a waiting caller nobody answers is told so once the timeout has passed, as long as no age reaches 2^32 ms |
| `CallProgress.LostCallNeverSucceeds` | netx_client/src/client/impl_client.rs:1260-1263 | in every run losing a frame loses that one only, and the caller it belonged to waits or has been told that it timed out, in every later state |
| `CallProgress.RefusedExactly` | netx_client/src/client/impl_client.rs:1231-1259 | in every run a call ends as not connected if and only if the client had no connection when it registered, and with a network error if and only if its send failed |
| `CallTheorems.AnsweredAtMostOnce` | netx_client/src/client/impl_client.rs:848-878 | a result and a timeout never both reach one caller: each sender is used at most once per run |
| `CallTheorems.OutcomeIsFinal` | netx_client/src/client/impl_client.rs:1226-1264 | an outcome, once given, is the same in every later state |
| `CallTheorems.SerialsAreFresh` | netx_client/src/client/impl_client.rs:739-741 | serials in callers, map, queue and flight are below the counter, pairwise different between callers, and a registering caller never finds its serial taken; reconnects included |
| `CallTheorems.DrawnInOrder` | netx_client/src/client/impl_client.rs:739-741 | in every run the k-th call drawn has serial k, as the objects' own counter gives them |
| `CallTheorems.NobodyForgotten` | netx_client/src/client/impl_client.rs:1231-1259 | every serial in the pending map is in the time queue, or its caller is between the map insert and the queue push, or the sweep is about to fail it; a failed send is no exception |
| `CallTheorems.QuietDrains` | netx_client/src/client/request_manager.rs:68-81 | once no caller is mid-registration and every queued request is overdue, one sweep leaves map and queue empty |
| `CallTheorems.QuietRunDrains` | netx_client/src/client/request_manager.rs:55-81 | in every run with prompt sweeps: when nobody has registered for more than timeout + period and nobody is mid-registration, map and queue are empty |
| `CallTheorems.UninterruptedSweep` | netx_client/src/client/request_manager.rs:55-81 | the machine's fine-grained pop and fire steps, uninterrupted, change map and queue as the `check` method does, and count as a pass from where they began |
| `CallTheorems.RunTimely` | netx_client/src/client/request_manager.rs:55-64 | with a pass begun every `period` ms, nothing queued was overdue when the last pass began |
| `CallTheorems.NoRequestOutlivesTimeout` | netx_client/src/client/request_manager.rs:55-81 | with timeout + period < 2^32 ms no request queued at the client is older than timeout + period, and the truncated age comparison is the exact one at every sweep of every run |
| `CallTheorems.NobodyWaitsTooLong` | netx_client/src/client/request_manager.rs:55-81 | every waiting caller was stamped at most timeout + period ago |
| `TokenCalls.TokenStepRefines` | netx_server/src/server/async_token.rs:435-466 | every step of a server token's call life, registering and stamping at once and sweeping without a break, is a stretch of the call machine's steps |
| `TokenCalls.TokenRunRefines` | netx_server/src/server/async_token.rs:107-119 | every run of a token's calls is, at its actor steps, a run of the call machine |
| `TokenCalls.TokenCorrelation` | netx_server/src/server/async_token.rs:245-271 | server to client too, in every run: one place per serial, executed at most once, answered at most once |
| `TokenCalls.TokenOutcomeIsOwn` | netx_server/src/server/async_token.rs:435-466 | a token's caller gets the result of its own request or an error of its own |
| `TokenCalls.TokenTableCovered` | netx_server/src/server/async_token.rs:440-459 | on the server every pending serial has its queue entry and the queue is sorted, in every state of every run |
| `TokenCalls.TokenRunTimely` | netx_server/src/server/async_token_manager.rs:61-78 | with every token pass begun at most `period` ms after the last, nothing queued on the token was overdue when its last pass began |
| `TokenCalls.NoTokenRequestOutlivesTimeout` | netx_server/src/server/async_token.rs:107-119 | with timeout + period < 2^32 ms every pending serial of a token in the map was stamped at most timeout + period ago, and the truncated comparison is the exact one at every sweep of every run |
| `CallMeaning.RunAnswers` | netx_server/src/server/impl_server.rs:361-402 | in a run whose handlers answer as the dispatcher does, every handled request carries the answer to that request |
| `CallMeaning.FinishedCallMeansDirect` | netx_client/src/client/impl_client.rs:1226-1264 | in every such run over an interface with distinct tags a finished stub call has an error of its own or exactly the direct call's outcome (an index error for an unserialisable value), whatever interleaves |
| `Restarts.OutcomeIsOwnUnlessStray` | netx_server/src/server/async_token.rs:245-271 | over runs with any number of client restarts: a caller whose object no reply to an earlier object's call has reached gets its own result or an error of its own |
| `Restarts.StrayExactlyInRuns` | netx_server/src/server/impl_server.rs:373-402 | at any point of any such run, a caller waiting under a serial can still get the reply to an earlier object's call if and only if a two-way call with that serial is left of an earlier object: on its way, being handled, or answered onto a connection of the current object |
| `Restarts.StrayExactly` | netx_server/src/server/impl_server.rs:373-402 | the same for any state whose replies are on opened connections |
| `Restarts.LastThreatLost` | netx_server/src/server/impl_server.rs:373-402 | in every such run, once the last such frame is lost, no stray reply under that serial can come to the current object |
| `Restarts.NewCallerGetsOldReply` | netx_client/src/client/impl_client.rs:739-741 | a run: a client restarted while its call is handled draws serial 1 again, and its new caller can be answered with the old result |
| `SessionInvariant.StepKeepsInv` | netx_server/src/server/impl_server.rs:239-260 | one step of any connection handler, the sweep or the clock keeps the session invariant: peers are serving handlers, queue entries come from finished handlers, live tokens are accounted for, closed ones are out of the map |
| `SessionInvariant.RunInv` | netx_server/src/server/async_token_manager.rs:82-110 | the session invariant holds in every state of every run |
| `SessionLeaks.LeakNeedsFailure` | netx_server/src/server/impl_server.rs:248-257 | a live token with no peer, no handler and no queue entry exists only if a Disconnect function of its session failed |
| `SessionLeaks.SuccessfulRunsNeverLeak` | netx_server/src/server/impl_server.rs:248-257 | no run whose Disconnect functions succeed ever leaks a token |
| `SessionLeaks.LeaksExactly` | netx_server/src/server/impl_server.rs:248-257 | in every run, for a token with any number of connections, none open any more, still in the map: it is leaked if and only if the last of its handlers to end did so by a failed Disconnect function while no earlier disconnect of the session was queued or being acted on |
| `SessionLeaks.FailedYetReaped` | netx_server/src/server/impl_server.rs:248-257 | for every save time a run, with one live connection at a time, that reaps a token whose latest Disconnect function failed |
| `SessionLeaks.LeakIsForever` | netx_server/src/server/async_token_manager.rs:82-110 | a leaked token stays leaked in every later state unless a client resumes that session |
| `SessionTheorems.ClosedOnceAndWhenDue` | netx_server/src/server/async_token_manager.rs:82-110 | Closed is called exactly for tokens taken out of the map, at most once each, and only for a disconnect of that very token at least the save time old; the controller stays until Closed has returned |
| `SessionTheorems.PeerIsServing` | netx_server/src/server/impl_server.rs:243-250 | a token's peer is always a handler that serves that token |
| `SessionTheorems.ResumableWindow` | netx_server/src/server/async_token_manager.rs:154-156 | after a disconnect is queued with no older one pending, the session keeps the same token until its save time is over, whatever all other sessions do |
| `SessionTheorems.GoneForEver` | netx_server/src/server/async_token_manager.rs:132-142 | a session id whose token has left the map never returns to it |
| `SessionTheorems.ResumableWindowTimed` | netx_server/src/server/async_token_manager.rs:264-273 | with prompt sweeps and no disconnect of the session queued in the last save time + period, the session is resumable with its token during the save time if and only if the token is still in the map when the disconnect is queued |
| `SessionRaces.GoneBeforeEnqueue` | netx_server/src/server/impl_server.rs:248-257 | that condition is needed: for every save time and every positive period (together below 2^32 ms), a run prompt in every state in which a dead connection's token is removed before its handler queues the disconnect |
| `SessionTheorems.RunTimely` | netx_server/src/server/async_token_manager.rs:61-71 | with prompt sweeps nothing queued was overdue when the last pass began |
| `SessionTheorems.UninterruptedSweep` | netx_server/src/server/async_token_manager.rs:82-110 | the check, remove and clear steps, uninterrupted, remove exactly the due and disconnected sessions, leave what the pop-back loop leaves, and count as a pass from where they began |
| `SessionRaces.ServingOwnsPeerExactly` | netx_server/src/server/impl_server.rs:247-250 | in every run a serving handler's connection is its token's peer if and only if no other handler of the token has attached or detached since this one attached |
| `SessionRaces.LatestDecides` | netx_server/src/server/async_token.rs:206-211 | in every run the peer of a token is what the latest attach or detach of any of its handlers set |
| `SessionRaces.CondemnsServingExactly` | netx_server/src/server/async_token.rs:484-498 | the sweep condemns a token with a live serving connection, at a due entry, if and only if the latest change of its peer was a detach, or an attach of another connection that has died since |
| `SessionRaces.RemovalRaceExactly` | netx_server/src/server/async_token_manager.rs:82-110 | a condemned token can be serving when it is removed if and only if some live connection had looked it up but not yet set itself as peer |
| `SessionRaces.RemovesServingExactly` | netx_server/src/server/async_token_manager.rs:82-110 | in every run a token is removed while serving a live connection if and only if some connection served it, hidden by the latest change of its peer, when the sweep came by, or had looked it up by then and attached since, and has neither died nor detached since |
| `SessionRaces.StaleDetachReapsServing` | netx_server/src/server/impl_server.rs:248-257 | for every save time a run with at most one live connection per session in every state: a client reconnects, its dead connection's handler detaches late, and the serving token is reaped |
| `SessionRaces.ResumeRaceReapsServing` | netx_server/src/server/impl_server.rs:303-319 | likewise with a session resumed just before the check |
| `Orphans.StepKeepsInv` | netx_server/src/server/async_token_manager.rs:61-78 | every step of sessions, calls and the manager's passes over many tokens keeps: live tokens were swept since the pass began or are still to be, and what is queued was not overdue when last swept |
| `Orphans.RunInv` | netx_server/src/server/async_token_manager.rs:61-110 | so in every state of every run with prompt passes |
| `Orphans.OrphansAreRecent` | netx_server/src/server/async_token_manager.rs:74-110 | whatever call is pending on a token about to be removed was begun less than request timeout + period before, in every run |
| `Orphans.RemovalOrphans` | netx_server/src/server/async_token_manager.rs:82-110 | the removal leaves such a call pending on a token outside the map |
| `Orphans.OrphanedForEver` | netx_server/src/server/async_token_manager.rs:74-78 | and there it stays in every later state unless an answer still arrives: only tokens in the map are swept |
| `Orphans.OrphanedExactly` | netx_server/src/server/async_token_manager.rs:74-78 | in every later state of the run the call is pending there if and only if its answer has not arrived |
| `Orphans.LossExactly` | netx_server/src/server/async_token_manager.rs:61-110 | for every request timeout, save time and positive pass period (timeout + 2 periods, and the save time, below 2^32 ms): some run of prompt passes loses a call begun before its session's disconnect was queued if and only if save time < request timeout + period, or the timeout is 0 and save time <= period |
| `Orphans.LossIsRisky` | netx_server/src/server/async_token_manager.rs:61-110 | the only-if half, for every reachable state |
| `Orphans.RiskyLoses` | netx_server/src/server/async_token_manager.rs:61-110 | the if half, by a run for any such constants |
| `Orphans.ResumedCallIsLost` | netx_server/src/server/impl_server.rs:303-319 | a call begun after a resume can be left behind for every request timeout, save time and period |
| `Transparency.RpcTransparency` | netx_builder/src/lib.rs:387-455 | stub, request frame, dispatch, result frame, decode, `check` and `deserialize` together run the meant function once and return, under the caller's serial, what calling the handler directly returns if and only if the value asked for can be serialised; otherwise an index error |
| `Transparency.RequestRunsAsMeant` | netx_server/src/server/impl_server.rs:361-402 | a stub's request makes the callee run exactly the meant function with the meant arguments; call type 0 gets no reply |
| `Transparency.DispatchedAsMeant` | netx_builder/src/lib.rs:387-474 | the dispatcher decodes a stub's packed arguments back to the caller's values and picks the caller's function |
| `Transparency.ReplyReadsBack` | netx_client/src/client/impl_client.rs:616-641 | a reply frame is read by the other side as a result for the same serial, with the same payload |
| `Transparency.AnswerMeansDirect` | netx_server/src/server/async_token.rs:219-242 | what the caller makes of an answer equals the direct call's outcome, or is an index error if its value was dropped as unserialisable; a handler error arrives as `CallError` with the wrapper's id and text |
| `Transparency.HandlerErrorArrives` | netx_server/src/server/async_token.rs:219-242 | a handler's error arrives as the call error with id -1 from a server and 1 from a client, and the rendered text byte for byte |
| `Transparency.UnknownTypeIsIgnored` | netx_server/src/server/impl_server.rs:398-401 | a call of a type above 2 runs nothing and is not answered |
| `Handshake.StepKeepsInv` | netx_client/src/client/impl_client.rs:373-441 | every step of opening, announcing, judging, reading, connecting and sending keeps the link invariant |
| `Handshake.RunInv` | netx_client/src/client/impl_client.rs:373-441 | the link invariant holds in every run, over reconnects and overlapping connections |
| `ClientTraffic.ReadsAsMeantExactly` | netx_client/src/client/impl_client.rs:1250-1259 | in every run, over reconnects and overlapping connections, whoever calls when: an announced connection that wrote nothing before its verify message reads, at the server, as that message and then exactly the bodies written, if and only if every one of them was written in a mode other than 0 |
| `ClientTraffic.ModeAgreement` | netx_server/src/server/impl_server.rs:357-362 | in every run whose callers wait for the Connect function, every announced connection reads as meant |
| `ClientTraffic.EarlyCallIsRefused` | netx_server/src/server/impl_server.rs:287-291 | in every run, a connection that carried a call before its verify message is answered "not verify key" if and only if that call was bare or its frame is not 1000 bytes long, and then its verify message is not read |
| `ClientTraffic.ReconnectedCallsEarly` | netx_client/src/client/impl_client.rs:1070-1123 | a run that gets there: the mode stays 1 after the first connection, so a call can go out on the next one before the verify message, and is refused |
| `Handshake.VerifiedMeansFramed` | netx_client/src/client/impl_client.rs:393-411 | of all server messages only a positive key answer is read as verification, and it always switches framing on |
| `ClientTraffic.BareIsMisread` | netx_client/src/client/impl_client.rs:1250-1259 | no bare call, result or session request is ever read as the frame of itself, whatever follows it on the stream |
| `Handshake.ConnectVerdict` | netx_client/src/client/impl_client.rs:1070-1143 | at most one verdict per connection even if verify messages repeat; `Ok` if and only if the Connect function succeeded, and then the server had verified; a reader that ends early fails the wait |
| `ClientSession.EachMessageDoes` | netx_client/src/client/impl_client.rs:389-512 | what each kind of server message does to client and connection: a refusal gives the verdict and ends the reader, a positive answer turns framing on, asks for the session id and starts the Connect function once, a session id is kept, a call of a type above 2 panics, the rest go on |
| `ClientSession.VerdictFollows` | netx_client/src/client/impl_client.rs:1120-1143 | in every run a refused connection fails the wait with the server's text, and an accepted one ends it as the Connect function says |
| `ClientSession.EndedUnanswered` | netx_client/src/client/impl_client.rs:1120-1143 | in every run a reader that ends before any answer ends the wait as abandoned |
| `ClientSession.SessionIsLastGiven` | netx_client/src/client/impl_client.rs:442-446 | in every run the client's session id is the last one a reader took off any connection, or the initial one |
| `ClientSession.AnnouncesLastSession` | netx_client/src/client/impl_client.rs:373-383 | in every run what the server reads of an announced connection that wrote nothing before is the client's name and key and the session id last taken before that announcement |
| `ClientSession.ModeExactly` | netx_client/src/client/impl_client.rs:393-411 | in every run the mode is 0 until a reader has taken the first positive key answer, off whichever connection, and 1 from then on, over every reconnect |
| `ClientSession.WritesInMode` | netx_client/src/client/impl_client.rs:1250-1259 | in every run a write goes out bare if no positive key answer has been read, and as one frame otherwise |
| `ClientSession.MessagesInOrder` | netx_client/src/client/impl_client.rs:384-514 | in every run what the client took off a connection, followed by what is on its way, is what the server put on it, in order |
| `PeerCheck.CheckPeer` | netx_server/src/server/impl_server.rs:282-303 | reads the verify message off the bare stream; the answer, or silence, is that of the reading order for every stream, complete or cut; a session id comes out if and only if the message is whole, the server has no service name or this is it, and no key or this is it; then exactly its bytes are consumed |
| `PeerCheck.VerifyMessageIsJudged` | netx_server/src/server/impl_server.rs:287-302 | a whole verify message is answered "service name error" if the server has a service name and this is another, else "service verify key error" if it has a key and this is another, else "verify success", byte for byte and whatever follows |
| `PeerCheck.AcceptsExactly` | netx_server/src/server/impl_server.rs:287-302 | of all streams, complete or cut, exactly those are accepted that start with command 1000 and a name and a key that fit |
| `PeerCheck.WrongNameIsRefused` | netx_server/src/server/impl_server.rs:292-296 | a wrong name is refused before the key has been read, whatever follows |
| `PeerCheck.OtherCommandIsRefused` | netx_server/src/server/impl_server.rs:287-291 | "not verify key" is the answer if and only if the command is not 1000, whatever follows |
| `PeerCheck.IncompleteIsNotAnswered` | netx_server/src/server/impl_server.rs:287-302 | a stream that ends inside fitting fields is not answered |
| `ClientTraffic.CurrentExactly` | netx_client/src/client/impl_client.rs:899-911 | in every run the client uses a connection if and only if it was opened and since then neither the client was closed nor any reader, of whatever connection, has cleaned up |
| `ClientTraffic.CleansOwnOnly` | netx_client/src/client/impl_client.rs:334-348 | as long as the client is not closed a reader that cleans up takes its own connection |
| `ClientTraffic.CleanTakesNewer` | netx_client/src/client/impl_client.rs:1201-1223 | after a close and a new connect the old reader's clean-up takes the new connection: a run |
| `TimedQueue.SweepIsFullScanExactly` | netx_client/src/client/request_manager.rs:68-81 | the lazy pop-back sweep equals the full scan by exact age if and only if no overdue entry has an age that wraps below the limit modulo 2^32 |
| `TimedQueue.SweepIsFullScan` | netx_server/src/server/async_token.rs:107-119 | the sweep leaves the same queue and fails the same serials in the same order as the full scan |
| `TimedQueue.SweepOfYoungQueue` | netx_client/src/client/request_manager.rs:68-81 | with ages below 2^32 ms the sweep is the full scan |
| `TimedQueue.WrappedAgeIsMissed` | netx_client/src/client/request_manager.rs:71 | counterexample: a request 2^32 ms old is overdue and the sweep keeps it |
| `TimedQueue.NeverEarly` | netx_client/src/client/request_manager.rs:71 | truncation never times a request out before its limit |
| `TimedQueue.YoungAgree` | netx_client/src/client/request_manager.rs:71 | below 2^32 ms the truncated and the exact test agree |
| `TimedQueue.SweepWhileTimePasses` | netx_client/src/client/request_manager.rs:68-81 | with the clock running during a sweep: what was overdue at its start is gone, what is gone was overdue at its end |
| `TimedQueue.SweepBoundsAges` | netx_client/src/client/request_manager.rs:55-81 | until the next sweep starts nothing that was queued is older than limit + period |
| `TimedQueue.SweptPartition` | netx_client/src/client/request_manager.rs:68-81 | a sweep neither loses nor duplicates: what stays followed by what it timed out is the old queue |
| `TimedQueue.SweptSorted` | netx_client/src/client/request_manager.rs:68-81 | a sweep keeps the queue sorted by age |
| `TimedQueue.SweepStopped` | netx_server/src/server/async_token_manager.rs:82-110 | the loop's progress condition at its exit pins down the sweep's result |
| `Requests.SweepKeepsCovered` | netx_server/src/server/async_token.rs:95-119 | a sweep leaves no pending serial without a queue entry |
| `Requests.QuietTableEmpties` | netx_server/src/server/async_token.rs:107-119 | when every entry is due one sweep empties map and queue |
| `Requests.RequestManager.Check` | netx_client/src/client/request_manager.rs:68-81 | the in-place loop performs exactly the specified sweep on queue and client map, and exactly the swept serials' live receivers get `SerialTimeOut` |
| `Requests.RequestManager.Set` | netx_client/src/client/request_manager.rs:89-91 | stamps the serial at the front of the queue |
| `Requests.NetXClient.NewSerial` | netx_client/src/client/impl_client.rs:739-741 | returns the counter and adds one; at 2^63 - 1 it wraps to -2^63 |
| `Requests.ClientDraws` | netx_client/src/client/impl_client.rs:739-741 | any number of draws from a new client, below 2^63 - 1, give 1, 2, 3, and so on |
| `Requests.NetXClient.Begin` | netx_client/src/client/impl_client.rs:1231-1245 | registers a fresh sender if connected and the serial is free, else `NotConnect` or `SerialHave` with nothing changed |
| `Requests.NetXClient.SetResult` | netx_client/src/client/impl_client.rs:848-866 | removes exactly that serial and answers exactly its caller, if it still listens |
| `Requests.NetXClient.SetError` | netx_client/src/client/impl_client.rs:869-878 | one more serial of the sweep is removed and told it timed out |
| `Requests.NetXClient.InputBuffer` | netx_client/src/client/impl_client.rs:334-348 | however the read loop ends, unless it panicked, the client is left without a connection, whichever it had by then; it succeeds if and only if the loop did not panic, the socket closed well and the Disconnect function succeeded |
| `Requests.NetXClient.AnswerVerified` | netx_client/src/client/impl_client.rs:393-411 | told to, the client switches to frames first and then asks for the session id in one frame; otherwise it asks in the mode it is in |
| `Requests.AsyncToken.NewSerial` | netx_server/src/server/async_token.rs:89-91 | returns the counter and adds one; at 2^63 - 1 it wraps to -2^63 |
| `Requests.TokenDraws` | netx_server/src/server/async_token.rs:89-91 | likewise from a new token |
| `Requests.AsyncToken.SetController` | netx_server/src/server/async_token.rs:192-195 | sets or clears the controller |
| `Requests.AsyncToken.Begin` | netx_server/src/server/async_token.rs:435-460 | sender and time stamp go in together, the stamp at the front with the current time, keeping every pending serial queued; else `TokenDisconnect` or `SerialHave` with nothing changed |
| `Requests.AsyncToken.SetResult` | netx_server/src/server/async_token.rs:245-271 | removes exactly that serial, answers its caller, and fails with `SerialClose` if and only if that caller is gone |
| `Requests.AsyncToken.SetError` | netx_server/src/server/async_token.rs:95-103 | one more serial of the sweep is removed and told it timed out |
| `Requests.AsyncToken.CheckRequestTimeout` | netx_server/src/server/async_token.rs:107-119 | performs exactly the specified sweep on the token's table and keeps every pending serial queued |
| `Requests.AsyncToken.IsDisconnect` | netx_server/src/server/async_token.rs:484-498 | true if and only if there is no peer or its socket is gone |
| `TokenManager.AsyncTokenManager.CreateToken` | netx_server/src/server/async_token_manager.rs:132-142 | a fresh token with controller and no peer under the new id, or nothing registered if the controller cannot be made |
| `TokenManager.AsyncTokenManager.Arrive` | netx_server/src/server/impl_server.rs:303-319 | a connection gets the token of the session it names if that is registered, else a new one, and only that token's peer changes: from then on it counts as disconnected exactly when this connection is |
| `TokenManager.AsyncTokenManager.Leave` | netx_server/src/server/impl_server.rs:250-257 | the token counts as disconnected whoever its peer was, and its disconnect is queued if and only if the Disconnect function succeeds |
| `TokenManager.AsyncTokenManager.PeerDisconnect` | netx_server/src/server/async_token_manager.rs:264-273 | queues the disconnect at the front with the current time, keeping the queue sorted |
| `TokenManager.AsyncTokenManager.Reap` | netx_server/src/server/async_token_manager.rs:82-110 | one due entry: its token is removed, closed and stripped of its controller if and only if it is registered and disconnected |
| `TokenManager.AsyncTokenManager.CheckTokensDisconnectTimeout` | netx_server/src/server/async_token_manager.rs:82-110 | one sweep drops exactly the due entries and removes and closes, once each, exactly the registered disconnected sessions among them |
| `Messages.DataReading` | netx_server/src/server/impl_server.rs:357-417 | the server's receive loop sees exactly the messages of the stream's complete frames, in order, however the bytes are chunked, up to the first undecodable frame or the first failure of acting on one |
| `Messages.ServerReadsExactly` | netx_server/src/server/impl_server.rs:361-415 | they are a prefix of the frames' messages, and all of them if and only if every frame decodes and neither answering a question for the session id nor handing over a result fails |
| `Messages.ServerStopsAt` | netx_server/src/server/impl_server.rs:361-415 | the first frame to stop the loop decides how it ends: with its decoding error, or with the error of answering the question or handing over the result |
| `Messages.ReadBuffer` | netx_client/src/client/impl_client.rs:384-514 | the same for the client's loop; a stream that ends inside a length ends it quietly, one that ends inside a frame with an error |
| `Messages.ClientReadsExactly` | netx_client/src/client/impl_client.rs:385-512 | it runs to the end of the stream if and only if every frame decodes and none is a refusal, a positive answer whose request for the session id fails, a call of a type above 2, or an unknown command |
| `Messages.ClientStopsAt` | netx_client/src/client/impl_client.rs:385-512 | the first frame to stop the loop decides how it ends: a refusal and an unknown command break it off, a call of a type above 2 panics, a failed request or an undecodable frame ends it with that error |
| `Messages.ReadServerFrame` | netx_server/src/server/impl_server.rs:362-415 | the cursor reads of one frame amount to the message the server sees |
| `Messages.ReadClientFrame` | netx_client/src/client/impl_client.rs:389-512 | the cursor reads of one frame amount to the message the client sees, including the mode byte only if exactly one byte is left |
| `Messages.CallRoundTrip` | netx_client/src/client/impl_client.rs:1298-1314 | either side reads a call body as its type, tag, serial and argument bytes |
| `Messages.CallExactly` | netx_client/src/client/impl_client.rs:447-451 | a frame is read as a call if and only if it is command 2400, call type, tag, serial and arguments, on either side |
| `Messages.ResultMessageRoundTrip` | netx_server/src/server/impl_server.rs:402-408 | either side reads a result body as its serial and payload |
| `Messages.ResultExactly` | netx_server/src/server/impl_server.rs:402-408 | a frame is read as a result if and only if it is command 2500, serial and payload, on either side |
| `Messages.KeyVerifyRoundTrip` | netx_server/src/server/impl_server.rs:487-501 | the client reads the key answer as its flag and text, framing on if and only if it is positive |
| `Messages.FramedExactly` | netx_client/src/client/impl_client.rs:393-411 | the client frames its traffic from a key answer on if and only if the answer is positive and exactly one byte, equal to 1, follows its text |
| `Messages.SessionIdRoundTrip` | netx_server/src/server/impl_server.rs:464-473 | the session id request and its answer read back as written |
| `Messages.SessionExactly` | netx_server/src/server/impl_server.rs:364-366 | a frame asks for the session id if and only if it starts with command 2000, and gives it if and only if the id follows that |
| `Messages.VerifyRoundTrip` | netx_server/src/server/impl_server.rs:287-303 | the bare verify message reads back as name, key and session id, leaving exactly what follows it |
| `Messages.VerifyExactly` | netx_server/src/server/impl_server.rs:287-303 | a stream starts with a verify message if and only if it is command 1000, name, key and session id in that order |
| `Messages.BackPatchIsFrame` | netx_server/src/server/impl_server.rs:430-452 | reserving four bytes and patching them equals prefixing the finished body with its length + 4 |
| `Messages.ServerResultBuff` | netx_server/src/server/impl_server.rs:430-452 | the successive writes and the patch build the frame of the result body |
| `Messages.ClientResultBuff` | netx_client/src/client/impl_client.rs:616-641 | the same body, framed unless the mode is 0 |
| `Messages.SessionIdMessage` | netx_server/src/server/impl_server.rs:464-473 | builds the frame of the session id body |
| `Messages.KeyVerifyMessage` | netx_server/src/server/impl_server.rs:487-501 | builds the frame of the key answer body |
| `Messages.VerifyBuff` | netx_client/src/client/impl_client.rs:572-579 | builds the bare verify message |
| `Messages.SessionIdBuff` | netx_client/src/client/impl_client.rs:590-602 | builds the session id request, framed unless the mode is 0 |
| `Messages.ClientCallBuff` | netx_client/src/client/impl_client.rs:1250-1259 | builds the call body, framed at send time unless the mode is 0 |
| `Messages.ServerCallBuff` | netx_server/src/server/async_token.rs:506-522 | builds the frame of the call body by patching |
| `RetResults.From` | netx_client/src/client/result.rs:94-110 | the cursor loop decodes exactly what the decoder function does, consumes the same bytes and fails alike |
| `RetResults.ResultRoundTrip` | netx_client/src/client/result.rs:94-110 | a result survives the wire, normalised and consuming exactly its bytes, if and only if it is an error or its argument count is below 2^31 |
| `RetResults.ErrorRoundTrip` | netx_server/src/server/result.rs:116-132 | an error comes back with id and message, its arguments dropped |
| `RetResults.SuccessDecode` | netx_server/src/server/result.rs:116-132 | a success comes back with all arguments and the fixed message; a count of 2^31 or more reads as negative and panics |
| `RetResults.ArgsRoundTrip` | netx_client/src/client/result.rs:104-107 | an argument list of any length reads back, leaving what follows |
| `RetResults.ReadArgs` | netx_client/src/client/result.rs:104-107 | the push loop reads exactly the announced arguments |
| `RetResults.PutArgsAppend` | netx_server/src/server/impl_server.rs:441-447 | writing one more argument appends its buffer |
| `Framing.StreamFraming` | netx_server/src/owned_read_half_ex.rs:46-52 | concatenated frames parse back to exactly the payloads |
| `Framing.ParseFramesAppend` | netx_server/src/owned_read_half_ex.rs:46-52 | the same with anything following |
| `Framing.TruncatedStream` | netx_client/src/client/impl_client.rs:385-389 | a stream cut anywhere parses to its longest run of complete frames |
| `Framing.PartialFrame` | netx_server/src/owned_read_half_ex.rs:46-52 | a proper prefix of a frame yields nothing |
| `Framing.FrameRoundTrip` | netx_server/src/owned_read_half_ex.rs:46-52 | one frame is taken off and leaves exactly the rest |
| `Framing.FramesSnoc` | netx_server/src/server/impl_server.rs:471 | sending one more frame extends the stream by it |
| `Framing.ReadHalf.ReadFrames` | netx_server/src/server/impl_server.rs:361 | the read loop yields the frames of the whole stream however it is chunked |
| `Framing.ReadHalf.ReadExact` | netx_server/src/owned_read_half_ex.rs:46-52 | gathers chunks until n bytes are there, or fails at the end of the stream |
| `Framing.ReadHalf.ReadString` | netx_server/src/owned_read_half_ex.rs:32-38 | reads a length-prefixed string and leaves the rest of the stream |
| `Framing.ReadHalf.ReadBuff` | netx_server/src/owned_read_half_ex.rs:46-52 | reads one frame body, the length less 4 in 32-bit arithmetic |
| `Wire.BufRoundTrip` | netx_server/src/owned_read_half_ex.rs:32-38 | a length-prefixed buffer below 2^32 bytes reads back and leaves what follows |
| `Wire.FromLEOfLE` | netx_client/src/client/impl_client.rs:572-579 | decoding inverts encoding of a little-endian field of any width |
| `Wire.LEOfFromLE` | netx_client/src/client/impl_client.rs:572-579 | encoding inverts decoding |
| `Wire.LEDigits` | netx_client/src/client/impl_client.rs:572-579 | byte i of a field is its i-th base-256 digit, lowest first |
| `Wire.SignedBytes` | netx_client/src/client/impl_client.rs:572-579 | -1 is four bytes of 255, and the protocol's command numbers are these bytes |
| `Wire.I32RoundTrip` | netx_client/src/client/impl_client.rs:572-579 | signed 32-bit fields read back, two's complement included |
| `Wire.I64RoundTrip` | netx_client/src/client/impl_client.rs:572-579 | signed 64-bit fields read back |
| `Wire.U32RoundTrip` | netx_client/src/client/impl_client.rs:590-602 | unsigned 32-bit fields read back |
| `Wire.I32AsU32` | netx_builder/src/lib.rs:261 | an argument count written as signed is what the dispatcher reads as unsigned |
| `Builder.DispatchSound` | netx_builder/src/lib.rs:387-474 | a message runs function i with given arguments if and only if i is the first with its tag, the call type and argument count match and every argument decodes |
| `Builder.AnswerCarries` | netx_builder/src/lib.rs:408-441 | what runs answers as its call type says: no argument for types 0 and 1, for type 2 the packed value or, if it cannot be serialised, nothing; an error is passed on except for type 0 |
| `Builder.MismatchFails` | netx_builder/src/lib.rs:387-474 | a message with a known tag that runs nothing is an error |
| `Builder.UnknownTagFails` | netx_builder/src/lib.rs:459-474 | a message with an unknown tag runs nothing, and is an error unless the tag is one of the three special ones |
| `Builder.FirstMatch` | netx_builder/src/lib.rs:387-474 | the first function with the tag, or none if no function has it |
| `Builder.DistinctTagsFound` | netx_builder/src/lib.rs:240-330 | with distinct tags every function is found under its own tag |
| `Builder.SpecialFunctions` | netx_server/src/server/async_token.rs:64-71 | tags 2147483647, 2147483646 and 2147483645 succeed silently when the interface does not have them, and run only if declared with call type 1 and no arguments, with the implementation's outcome |
| `Builder.ArgumentsRoundTrip` | netx_builder/src/lib.rs:240-330 | arguments packed back to back unpack one by one to the same values |
| `Builder.GetFuncsInfo` | netx_builder/src/lib.rs:490-544 | the loops over items and inputs compute the function list, panicking where it says |
| `Builder.ExpandsExactly` | netx_builder/src/lib.rs:490-544 | expansion succeeds if and only if every tagged method is async with a known tag, plain parameters and an accepted return type, and then lists exactly the tagged methods in order, each with its name, tag, call type and parameters |
| `Builder.NamedInputsExactly` | netx_builder/src/lib.rs:502-519 | parameters are accepted if and only if none is a pattern, and then listed in order without the receiver |
| `Builder.ResultTtExactly` | netx_builder/src/lib.rs:62-105 | a return type is accepted if and only if its first `Result` segment has exactly one argument, and gives call type 1 for unit, 2 otherwise |
| `Builder.GetFunctionTt` | netx_builder/src/lib.rs:62-105 | call type 0 if and only if there is no return type, never above 2 |
| `Builder.GetImplFuncs` | netx_builder/src/lib.rs:108-185 | one stub per function, in order, with its name, tag and parameters in declaration order, and the macro form of its call type; no panic on a parsed interface |
| `Builder.StubPassesInOrder` | netx_builder/src/lib.rs:108-145 | a stub passes its caller's arguments in the order of the declaration |
| `Builder.ReadInputs` | netx_builder/src/lib.rs:502-519 | the input loop collects names and types of the non-receiver parameters |

## Left out

- TLS, certificates, `MaybeStream` and the TCP client and server crates: a connection is a pair of byte channels that may break.
- tokio, `aqueue`, oneshot, watch and serde internals, and reads that bypass the actor queue: actor steps are atomic, oneshot channels are single-use cells, packed values are opaque.
- Token-level macro work (`syn`, `quote!`): the model starts from parsed items and ends at the meaning of what is generated.
- The examples, logging, `Drop` messages, `ServerOption` serialisation, the reset of `connect_stats`, callers of `connect_network` that join an attempt already under way, and the fixed sleeps after disconnecting.
- Error texts: the text a handler's error is rendered to is an opaque function of the error; strings are their bytes, so the replacement of invalid UTF-8 is not modelled.
- PeerCheck.CheckPeer: says nothing about how much was consumed when the verify message is refused, since the connection is dropped then.
- Framing.ReadHalf.ReadExact: what is left of the stream after a failed read is not stated, since every reader gives the connection up then.
- Framing.FrameRoundTrip: bodies whose length + 4 reaches 2^32 are excluded, since their header wraps; headers below 4 follow the wrapping arithmetic of a release build.
- Requests.NetXClient.Begin: `call` is modelled as its actor steps, not as one awaited method; the sequence insert, stamp, send, wait is in the call machine.
- Requests.NetXClient.SetError: takes the sweep's own error only, since nothing else calls it; so does `Requests.AsyncToken.SetError`.
- The network part of `clean_connect` and `close` (disconnecting the socket, clearing the controller); what they do to the client's connection is in the handshake machine and in `Requests.NetXClient.InputBuffer`.
- TokenCalls.TokenOutcomeIsOwn: the token's `TokenDisconnect` is called `NotConnect` there.
- CallMeaning.FinishedCallMeansDirect: an implementation is a function of its arguments, so handlers that keep state between calls are not covered.
