# Connected Vehicle Platform: verified model

A Dafny 4.11 model of the connectivity service of the Connected Vehicle Platform, with proofs about every run and
every interleaving. `dafny verify dfyconfig.toml` checks all of it.

## What is modelled

Time is an integer number of nanoseconds. Calls into the network, the MQTT library, the authentication backend and the
clock are answered by the outside world: each answer is a parameter of the step or call that needs it, so a statement
about all parameters is a statement about all such answers.

**The service as a protocol** (`ServiceModel.dfy`). One controller thread calls `start` and `stop` in any order; every
`start` that succeeds spawns a worker thread running the loop; around them the clock advances, somebody may clear the
token or authenticate, and somebody may disconnect or connect the transport. A step is one atomic store, one call, or
one sleep, so the threads interleave at each of them: `start` stores `Publishing` after the worker already runs, and
that store can land anywhere in the worker's first iteration. A worker step is `NextPc` (where the loop goes next)
together with `Effect` (what it does to shared state); `ControlStep` is the controller's. A run is a sequence of
labels and states, and a label carries the answers, so the next state is a function of state and label.
`ServiceInvariant.dfy` proves one inductive invariant; the files `ServiceShutdown`, `ServiceGate`, `ServiceStop`,
`ServicePacing`, `ServiceRecovery`, `ServiceBooks`, `ServiceToken`, `ServiceStatus`, `ServiceLink` and
`ServiceOutside` prove the theorems about runs, and `ServiceThrows` says what an exception does.

**The service as a program** (`ConnectivityService.dfy`). `start`, `stop` and `runLoop` with their statements in
order, as methods of a class. Each method is proved to take exactly a path of the step model, and to have the effect
one expects when nobody interferes.

**Telemetry manager and its client under any number of threads** (`ThreadModel.dfy`, `ThreadInvariant.dfy`,
`ThreadTheorems.dfy`, `ThreadQueue.dfy`): with the MQTT client and the Paho backend below it, with the SOME/IP client,
or with none. Each thread has a small call stack (manager, client, backend); taking a mutex, each access to shared
fields and each return is a step. `SoloCalls.dfy` ties this to the sequential classes: a connect, disconnect,
reconnect, publish, `queueMessage`, `publishSample` or `flushQueue` that no other thread interrupts always ends, and
ends as the sequential client or manager does on the answers the library gave it.

**The objects one at a time**: `AuthClient.dfy`, `AuthSession.dfy`, `MqttClient.dfy` (over `MqttLink.dfy`),
`SomeipClient.dfy` (with the descriptors it has opened and closed), `Frames.dfy` (the byte frames, built in place in
an array, and three readers), `Telemetry.dfy` (the queue), `TelemetrySample.dfy` (the printer, a JSON reader and a raw
one), and in `Transport.dfy` the contract both transports meet, with what follows from it alone. Whether a call got
through to the backend or the socket is measured: one class records the requests it makes of the library, the other
counts its system calls.

## What the proofs found

- A failed publish inside a flush loses the message: it was popped before it was sent. Everything else is conserved.
- The loop tries to reconnect exactly when no successful connect is standing that nobody has disconnected since. Both
  clients change their connection flag in `connect` and `disconnect` only, and the loop reads nothing else: any number of
  publishes in a row can fail without a reconnect. The project documentation (`README.md`, line 9: "connection monitoring
  and reconnect behavior") promises more; the model follows the code.
- Over MQTT, a `disconnect` that keeps failing keeps the loop from ever attempting a connect; over SOME/IP the loop never
  gives up on the link without a connect attempt.
- `publish` over SOME/IP reports a short send but leaves the connection up. The next frame is read back whatever it holds
  if and only if no send so far stopped inside its frame (and none carried 2^32 bytes or more): one cut is enough, and
  nothing sent later on the connection repairs it.
- `state()` can say `Publishing` while the worker waits to retry without a token: exactly when the last store of `start`
  came after the worker's failure.
- Nothing is escaped when a sample is printed. A reader that takes strings and numbers as sections 7 and 6 of RFC 8259
  have them gives the sample back if and only if identifier and timestamp hold no quote, no backslash and no control
  character, and the numbers are JSON numbers (a NaN is not). A backslash as identifier makes the text no JSON at all.
- A publish can happen in state `Disconnected`, but only after somebody outside the service has connected the transport or
  authenticated the vehicle since the attempt that failed; both can happen.
- If a call made by `start` throws, `running_` stays set without a thread: every later `start` claims success and does
  nothing, and the next `stop` joins a thread that does not exist. The lifecycle laws hold exactly as long as none throws.

## Assumptions

- One controller thread: two threads in `start` or `stop` at once would race on `worker_`.
- `AuthClient` has no lock; reading and writing its token is taken to be atomic.
- Library and backend calls return (an exception inside Paho is an answer like any other), and no call made by the worker
  throws: that would end the process.
- An `MqttClient` does not share its backend, and is not handed one that is already connected.

## Model

| member | source | states |
|---|---|---|
| ServiceInvariant.StepKeepsInv | src/ConnectivityService/connectivity_service.cpp:23-124 | every step of controller, worker or environment keeps the combined invariant: thread bookkeeping, set pointers, transport down between workers, explained states (both but for what somebody outside has mended), balanced sample books |
| ServiceInvariant.InvAlways | src/ConnectivityService/connectivity_service.cpp:23-124 | the invariant holds in every state of every run |
| ServiceInvariant.WiredAt | src/ConnectivityService/connectivity_service.cpp:31-51 | a worker exists only if all pointers the loop needs are set, so the loop's null checks never fire |
| ServiceShutdown.LifecycleAlways | src/ConnectivityService/connectivity_service.cpp:23-66 | between calls `running_` says whether `worker_` holds a thread; at most one worker is alive; `stop` never joins an empty thread object and `start` never assigns over a live one |
| ServiceShutdown.FailedStartCanBeRetried | src/ConnectivityService/connectivity_service.cpp:31-46 | a `start` that returns false leaves no thread, state `Disconnected`, and the next `start` begins afresh |
| ServiceShutdown.StoppedMeansStopped | src/ConnectivityService/connectivity_service.cpp:56-66 | from the return of a `stop` that found the service running until the next `start`: all threads exited, state `Stopped`, and the transport disconnected unless somebody outside has connected it since the worker's last disconnect |
| ServiceShutdown.NoWorkerStepUntilNextSpawn | src/ConnectivityService/connectivity_service.cpp:56-124 | after such a `stop` no worker takes any step, so publishes nothing and stores nothing, until a `start` spawns again |
| ServiceGate.PublishGate | src/ConnectivityService/connectivity_service.cpp:84-118 | every step of a loop publish, the transport's publish call included, is taken after the same iteration saw a usable token and then a usable transport, in every interleaving; and in state `Connected` or `Publishing`, unless somebody outside has connected with no reconnect of the loop since, or authenticated with no refresh since |
| ServiceGate.TokenEvidence | src/ConnectivityService/connectivity_service.cpp:86-98 | a worker past the token check read a valid and then non-empty token, or refreshed one and read it non-empty, in this iteration |
| ServiceGate.LinkEvidence | src/ConnectivityService/connectivity_service.cpp:100-111 | a worker about to publish found the transport connected or reconnected it |
| ServiceGate.TrustedWhilePublishing | src/ConnectivityService/connectivity_service.cpp:84-118 | the state half of the gate, from the call of `publishTelemetry` to its end: a `Disconnected` left by a failure is always explained by an empty token or a dead link, so it is overwritten before any publish unless help comes from outside |
| ServiceOutside.PublishesDisconnectedAfterOutsideConnect | src/ConnectivityService/connectivity_service.cpp:100-113 | a run in which the loop publishes in state `Disconnected` because somebody else connected the transport meanwhile |
| ServiceOutside.PublishesDisconnectedAfterOutsideLogin | src/ConnectivityService/connectivity_service.cpp:86-113 | a run in which it does because somebody else authenticated meanwhile |
| ServiceThrows.LifecycleIffNothingThrew | src/ConnectivityService/connectivity_service.cpp:23-66 | in every state of every run, calls of `start` that throw included, the thread bookkeeping holds if and only if none has thrown; afterwards the service is stranded for good |
| ServiceThrows.NextStopJoinsNothing | src/ConnectivityService/connectivity_service.cpp:23-66 | after a throw `start` returns true and does nothing, and the next `stop` joins an empty thread object |
| ServiceThrows.OnlyThrowsLeadToCrash | src/ConnectivityService/connectivity_service.cpp:56-64 | `stop` joins an empty thread object only after such a throw |
| ServiceStop.StopLatency | src/ConnectivityService/connectivity_service.cpp:84-124 | from any position a worker asked to stop takes at most `StepsLeft` more steps, 18 at worst |
| ServiceStop.StopTakesAtMost18Steps | src/ConnectivityService/connectivity_service.cpp:84-124 | from any position, in any interleaving, a worker asked to stop takes at most 18 more steps |
| ServiceStop.NothingTwiceAfterStop | src/ConnectivityService/connectivity_service.cpp:84-124 | after the request no position is visited twice: at most one refresh, one reconnect, one publish, one sleep |
| ServiceStop.SleepsAlwaysShort | src/ConnectivityService/connectivity_service.cpp:95-117 | no sleep under way has more than 5 000 000 000 ns left |
| ServiceStop.PendingStopCanFinish | src/ConnectivityService/connectivity_service.cpp:62-64 | a `stop` waiting in its join can be carried to its end, at rest, with no more clock time than the rest of one sleep |
| ServiceStop.EveryStopCanFinish | src/ConnectivityService/connectivity_service.cpp:56-66 | the same for every reachable state, with no more than 5 000 000 000 ns on the clock |
| ServicePacing.CallsAreSpaced | src/ConnectivityService/connectivity_service.cpp:9-10 | two loop publishes are at least 5 000 000 000 ns apart and two refreshes 2 000 000 000, also across a `stop` and `start` |
| ServicePacing.CallsInWindow | src/ConnectivityService/connectivity_service.cpp:84-118 | at most T / 5 000 000 000 + 1 loop publishes and T / 2 000 000 000 + 1 refreshes fit in a window of T |
| ServicePacing.SleepLedger | src/ConnectivityService/connectivity_service.cpp:84-118 | sleeps entered are exactly 2 000 000 000 ns per failed refresh or reconnect and 5 000 000 000 per iteration that reached publish, less what the worker is about to enter |
| ServicePacing.ClockCoversSleeps | src/ConnectivityService/connectivity_service.cpp:95-117 | sleeps never overlap: the clock has covered them all but the rest of the current one |
| ServiceRecovery.PublishesIffNoCallFailed | src/ConnectivityService/connectivity_service.cpp:84-118 | an iteration publishes if and only if none of the calls it made failed |
| ServiceRecovery.NoReconnectUnlessDroppedFromOutside | src/ConnectivityService/connectivity_service.cpp:100-103 | without a disconnect from outside, no worker ever enters the reconnect branch |
| ServiceRecovery.FailingDisconnectWedgesMqtt | src/MqttClient/mqtt_client.cpp:145-147 | once the MQTT client is down, as long as its disconnects fail, `start` is not run again and nobody outside connects it, nothing is connected or published |
| ServiceRecovery.SomeipAlwaysAttemptsConnect | src/SomeipClient/someip_client.cpp:73-76 | over SOME/IP, in every run, an iteration that gives up on the link has attempted a connect, and it failed |
| ServiceLink.ConnectedIffStanding | src/ConnectivityService/connectivity_service.cpp:42-122 | in every state the transport reports connected if and only if some connect succeeded (or it began connected) and no disconnect came since |
| ServiceLink.ReconnectsIffNoLinkStands | src/ConnectivityService/connectivity_service.cpp:100-103 | the loop takes the reconnect branch if and only if no such connect is standing |
| ServiceLink.SendsCanFailForEver | src/ConnectivityService/connectivity_service.cpp:100-117 | for every n a run in which n sends in a row fail and no reconnect is ever attempted |
| ServiceLink.LoopCanStayWedged | src/MqttClient/mqtt_client.cpp:145-147 | for every n a run in which a live worker over MQTT asks for n reconnects, each ends at its failing disconnect, and nothing is connected or published |
| ServiceRecovery.BacklogOnlyGrows | src/ConnectivityService/connectivity_service.cpp:113-117 | the loop never flushes: the pending queue only grows, at its end |
| ServiceRecovery.BacklogIsWhatWasNotDelivered | src/TelemetryManager/telemetry_manager.cpp:49-66 | the pending queue holds exactly the loop samples not delivered, each once, in generation order |
| ServiceBooks.SampleGoesWhere | src/TelemetryManager/telemetry_manager.cpp:49-60 | in every step of every run: a sample joins the delivered ones exactly at a worker's publish that the client confirms, connected at that moment if it is the client the service drives; it joins the queue exactly where the loop queues it; it is the sample last generated, and each loop publish generates one |
| ServiceBooks.PublishesIfOnline | src/TelemetryManager/telemetry_manager.cpp:51-52 | the loop's sample is sent exactly if there is a client and it is connected at the check, and queued otherwise; without a client always queued |
| ServiceBooks.QueuesIfNotThrough | src/TelemetryManager/telemetry_manager.cpp:53-59 | a sample whose publish does not go through is queued next; one whose publish does is not |
| ServiceBooks.NothingDeliveredWithoutClient | src/TelemetryManager/telemetry_manager.cpp:52 | without a client nothing is delivered in any state of any run |
| ServiceToken.TokenIsThatOfLastEvent | src/AuthClient/auth_client.cpp:14-42 | in every run the service holds the token of the last answer or clear, by whichever thread: the answer's text whole, expiring its lifetime after the answer; none after a refusal or a clear |
| ServiceToken.NoTokenBeforeFirstEvent | src/AuthClient/auth_client.cpp:8-12 | before any answer or clear there is no token |
| ServiceStatus.FailureShowsIffNoLateStore | src/ConnectivityService/connectivity_service.cpp:51-53 | during the sleep after a failure the state is `Disconnected` if and only if the last store of `start` did not come in between |
| ServiceStatus.LoopShowsWhereItIs | src/ConnectivityService/connectivity_service.cpp:86-111 | from each store of the loop to its next, `state()` is `Authenticating` before a refresh, `Publishing` after it, `Reconnecting` before a reconnect, `Connected` after it, `Disconnected` after either failed, unless the last store of `start` came in between |
| ServiceStatus.StartShowsWhereItIs | src/ConnectivityService/connectivity_service.cpp:28-52 | during `start` the state is `Starting`, `Authenticating`, `Connected` as its calls succeed, and `Disconnected` once one failed |
| ServiceStatus.LateStoreCanHideFailure | src/ConnectivityService/connectivity_service.cpp:51-53 | a run in which the state is `Publishing` while there is no token and the worker waits to retry |
| Connectivity.ConnectivityService.Start | src/ConnectivityService/connectivity_service.cpp:23-54 | `start` in the source's order is a path of the step model; its result, the token and the state it leaves in each outcome |
| Connectivity.ConnectivityService.Stop | src/ConnectivityService/connectivity_service.cpp:56-66 | wherever the worker stands, `stop` is a path of the step model, leaves the service at rest (`Stopped`, no thread, no connection), and takes no longer than the rest of one sleep |
| Connectivity.ConnectivityService.EnsureToken | src/ConnectivityService/connectivity_service.cpp:86-98 | the token block is a path of the step model; it succeeds on the valid token it found, kept as it was, or on the accepted answer's, stored whole with its lifetime; otherwise there is none and a 2 000 000 000 ns sleep begins |
| Connectivity.ConnectivityService.EnsureLink | src/ConnectivityService/connectivity_service.cpp:100-111 | the link block is a path of the step model; it succeeds exactly if connected or reconnected |
| Connectivity.ConnectivityService.PublishTelemetry | src/ConnectivityService/connectivity_service.cpp:68-74 | the new sample is delivered exactly if the manager has a client that is connected and confirms the publish (the shared client: connected now; no client: never), otherwise queued last; then the 5 000 000 000 ns sleep begins |
| Connectivity.ConnectivityService.Iterate | src/ConnectivityService/connectivity_service.cpp:85-118 | one pass through the loop is a path of the step model; it publishes exactly if token and link can be had, the sample then goes where the client's answers send it, and the pass takes 5 000 000 000 or 2 000 000 000 ns |
| Connectivity.ConnectivityService.RunLoop | src/ConnectivityService/connectivity_service.cpp:84-124 | the whole loop: any number of passes, with their total time, until the stop request is seen, then the last disconnect and the end of the thread |
| Connectivity.ConnectivityService.FinishLoop | src/ConnectivityService/connectivity_service.cpp:120-124 | once the stop request is seen the loop disconnects the transport and the thread ends |
| Connectivity.PathKeepsCore | src/ConnectivityService/connectivity_service.cpp:23-124 | everything these methods do keeps the invariant of the step model: thread bookkeeping, set pointers, balanced books |
| ThreadTheorems.MessagesConserved | src/TelemetryManager/telemetry_manager.cpp:49-83 | for any number of threads, every copy of every accepted message is delivered, pending, in flight or dropped, in every reachable state |
| ThreadTheorems.NothingLostWhenQuiet | src/TelemetryManager/telemetry_manager.cpp:49-83 | once all calls have returned, accepted = delivered + pending + dropped |
| ThreadTheorems.DropsOnlyWhenFlushPublishFails | src/TelemetryManager/telemetry_manager.cpp:74-81 | `dropped` grows exactly at a flush whose publish failed, by that one message |
| ThreadQueue.QueueIsFifo | src/TelemetryManager/telemetry_manager.cpp:62-83 | under every interleaving the publishes of all flushes are answered in the order the messages were queued, none left out or doubled, with at most one message in a flush's hands; what the backend published for them is, in that order, what was answered with true |
| ThreadQueue.DropsCountFailedFlushes | src/TelemetryManager/telemetry_manager.cpp:74-81 | the messages dropped are those whose publish was answered with false, and they are as many as the flushes that returned false after a publish |
| ThreadTheorems.FailedFlushLaw | src/TelemetryManager/telemetry_manager.cpp:74-81 | a failing flush took the queue it found apart into delivered prefix, one lost message, and rest, whatever other threads did |
| ThreadTheorems.FinishedFlushLaw | src/TelemetryManager/telemetry_manager.cpp:74-83 | a flush that returns true delivered all it found and leaves an empty queue |
| ThreadTheorems.OfflineFlushLaw | src/TelemetryManager/telemetry_manager.cpp:70-72 | an offline flush changes nothing |
| ThreadTheorems.MutualExclusion | src/MqttClient/mqtt_client.cpp:18-139 | at most one thread is inside each object's critical section |
| ThreadTheorems.LockOrder | src/TelemetryManager/telemetry_manager.cpp:62-88 | locks are taken manager, client, backend, and never twice by one thread |
| ThreadTheorems.NoDeadlock | src/TelemetryManager/telemetry_manager.cpp:62-88 | every reachable state with an unfinished call has an unfinished call that can step, whatever the library answers |
| ThreadTheorems.CallsFinish | src/TelemetryManager/telemetry_manager.cpp:49-88 | under any scheduling only boundedly many steps fit before another call must begin: no livelock |
| ThreadTheorems.FlagsAgreeOutside | src/MqttClient/mqtt_client.cpp:17-147 | whenever the client mutex is free the two connection flags agree and a connected backend has its object, also between the halves of `reconnect`; over SOME/IP, the flag agrees with holding a descriptor |
| ThreadTheorems.BackendGuardNeverRejects | src/MqttClient/mqtt_client.cpp:54-82 | a publish or subscribe that passed the client's guard is never turned away by the backend's |
| ThreadTheorems.BackendConnectAlwaysStartsDown | src/MqttClient/mqtt_client.cpp:17-21 | the client never asks a connected backend to connect |
| SoloCalls.AloneFinishes | src/TelemetryManager/telemetry_manager.cpp:49-88 | a call that nobody interrupts ends after boundedly many steps, whatever the library answers |
| SoloCalls.ConnectAlone | src/MqttClient/mqtt_client.cpp:104-112 | however an uninterrupted connect ends, flags and result are those of the sequential one on the answers it got |
| SoloCalls.DisconnectAlone | src/MqttClient/mqtt_client.cpp:114-118 | the same for disconnect |
| SoloCalls.ReconnectAlone | src/MqttClient/mqtt_client.cpp:145-147 | the same for reconnect, although it gives up the mutex between its halves |
| SoloCalls.PublishAlone | src/MqttClient/mqtt_client.cpp:120-126 | the same for publish: delivered exactly if connected and the library's one answer is a success; offline the library is not asked |
| SoloCalls.SubscribeAlone | src/MqttClient/mqtt_client.cpp:128-134 | the same for subscribe: true exactly if connected and the library's one answer is a success (over SOME/IP, exactly if connected) |
| SoloCalls.PublishSampleAlone | src/TelemetryManager/telemetry_manager.cpp:49-60 | the same for `publishSample`: delivered exactly if connected and the library's answer is a success, else queued last, and true |
| SoloCalls.FlushAlone | src/TelemetryManager/telemetry_manager.cpp:68-83 | the same for `flushQueue`: the sequential flush of the queue it finds, on the results read off the library's answers, with no question beyond the first failure |
| MqttClients.PahoMqttBackend.Connect | src/MqttClient/mqtt_client.cpp:17-36 | the backend's flag and object after each outcome of creating and connecting; the result is the flag |
| MqttClients.PahoMqttBackend.Disconnect | src/MqttClient/mqtt_client.cpp:38-52 | always leaves the flag down; fails exactly if there is an object and the library throws |
| MqttClients.PahoMqttBackend.Publish | src/MqttClient/mqtt_client.cpp:54-67 | hands the packet to the library exactly when connected |
| MqttClients.MqttClient.Connect | src/MqttClient/mqtt_client.cpp:104-112 | keeps both flags in agreement; returns true exactly if connected afterwards |
| MqttClients.MqttClient.Disconnect | src/MqttClient/mqtt_client.cpp:114-118 | leaves both flags down whatever it returns |
| MqttClients.MqttClient.Reconnect | src/MqttClient/mqtt_client.cpp:145-147 | connects only if the disconnect succeeded; returns true exactly if connected afterwards |
| MqttClients.MqttClient.Publish | src/MqttClient/mqtt_client.cpp:120-126 | offline nothing reaches the backend; online exactly this packet does, with the configured qos for a negative one |
| MqttClients.MqttClient.PerformAll | include/connected_vehicle_platform/mqtt_client.hpp:32-42 | any sequence of calls on the object makes a history of the transport contract; each record is fixed (before, result, after, whether the backend was reached), and the requests made of the library, with their arguments, are those and no others |
| Transports.OnlyConnectsAndDisconnectsMatter | include/connected_vehicle_platform/mqtt_client.hpp:32-42 | in any such history, of either client, the transport is up if and only if a connect or reconnect returned true and no disconnect or failed reconnect came since |
| Transports.NothingGetsThroughOffline | include/connected_vehicle_platform/mqtt_client.hpp:38-39 | in any such history a publish or subscribe reaches the backend or socket, or succeeds, only while such a connection stands |
| SomeipClients.SomeipClient.Connect | src/SomeipClient/someip_client.cpp:33-61 | the descriptor is held exactly if connected, and closed again in each failure branch |
| SomeipClients.SomeipClient.Disconnect | src/SomeipClient/someip_client.cpp:63-71 | closes the descriptor it holds and no other; always true |
| SomeipClients.SomeipClient.Reconnect | src/SomeipClient/someip_client.cpp:73-76 | connected exactly if the new connect succeeds |
| SomeipClients.SomeipClient.Publish | src/SomeipClient/someip_client.cpp:78-95 | offline nothing is sent; online the wire gains what send() took of a frame laid out byte by byte as service id, method id, length, payload; true exactly if send() took all 8 + size bytes, and the connection stays up either way |
| SomeipClients.DescriptorsBalance | src/SomeipClient/someip_client.cpp:33-76 | after any calls: connected exactly while a descriptor is held, opens equal closes plus one if connected, none closed twice |
| SomeipClients.SomeipClient.PerformAll | include/connected_vehicle_platform/mqtt_client.hpp:32-42 | any sequence of calls on the object makes a history of the same contract; each record is fixed, and the system calls counted are those it accounts for |
| SomeipClients.ReconnectAlwaysDials | src/SomeipClient/someip_client.cpp:73-76 | a reconnect always asks for a new descriptor |
| Frames.BuildFrame | src/SomeipClient/someip_client.cpp:87-91 | the buffer filled in place holds, byte by byte and for either byte order, service id, method id, payload length cut to 32 bits, and the payload |
| Frames.FrameIsLaidOut | src/SomeipClient/someip_client.cpp:87-91 | the same for the frame every law about the wire speaks of |
| Frames.ReceiveStream | src/SomeipClient/someip_client.cpp:87-91 | a reader of the whole header recovers service id, method id and payload of every frame of a stream of whole frames, in either byte order |
| Frames.DecodeStream | src/SomeipClient/someip_client.cpp:87-94 | a reader using the length field recovers exactly the payloads of a stream of whole frames, in either byte order |
| Frames.ReadersAgree | src/SomeipClient/someip_client.cpp:87-94 | the readers with and without the identifiers find the same payloads in any bytes |
| Frames.FrameReadsBackIffShort | src/SomeipClient/someip_client.cpp:87-88 | a frame reads back as its payload if and only if that is shorter than 2^32 bytes |
| Frames.ReadsOnIffAllWhole | src/SomeipClient/someip_client.cpp:78-95 | after any sends the next frame, whatever it holds, is read back after the payloads whose publish returned true if and only if no send stopped inside its frame and none that succeeded was 2^32 bytes or longer |
| Frames.OnlyACutSpoils | src/SomeipClient/someip_client.cpp:93-94 | that is lost exactly at a send that is cut, and never regained on the connection |
| Frames.WireReadsBack | src/SomeipClient/someip_client.cpp:93-94 | while every frame went out whole or not at all, the reader recovers exactly the payloads whose publish returned true and goes on at what follows |
| Frames.CutAtTheEndIsLeftOut | src/SomeipClient/someip_client.cpp:93-94 | a cut frame with nothing after it is left out, not misread |
| Frames.WholeFramesOnWire | src/SomeipClient/someip_client.cpp:93-94 | while every publish returned true the bytes sent are the concatenated frames |
| Frames.ShortSendMisaligns | src/SomeipClient/someip_client.cpp:93-94 | a short send after which the next successful publish is misread |
| Frames.StripHeader | src/main.cpp:65-73 | of n bytes received of one frame the listener shows the first max(0, n - 8) payload bytes |
| AuthClients.AuthClient.Authenticate | src/AuthClient/auth_client.cpp:14-29 | success stores the answer's token whole, expiring its lifetime in seconds after now, valid exactly if that is positive; a refusal clears it so that it is never valid until replaced; without a backend nothing changes; the backend is asked once, with the vehicle's credentials |
| AuthClients.ValidIffLastAnswerStillLives | src/AuthClient/auth_client.cpp:14-42 | over any history the token is valid exactly if the last event is an accepted answer that has not run out |
| AuthClients.TokenIsThatOfLastEvent | src/AuthClient/auth_client.cpp:14-42 | over any history the token is the text of the last event if that is an accepted answer, and empty after a refusal, a clear, or without a backend |
| AuthClients.InvalidUntilNextAcceptedAnswer | src/AuthClient/auth_client.cpp:31-42 | once invalid, only another accepted answer makes the token valid, however late one looks |
| AuthSessions.AuthSession.Authenticate | src/auth/auth_session.cpp:10-26 | the token is the initial one, else the first non-empty answer within the retry limit, else empty; exact number of calls; 200 ms sleeps between calls; authenticated exactly if non-empty |
| AuthSessions.CallsAreExact | src/auth/auth_session.cpp:16-22 | all calls but the last were answered empty, and the loop ends early only on a non-empty answer |
| AuthSessions.CallsAreUnique | src/auth/auth_session.cpp:16-22 | that determines the number of calls |
| TelemetrySamples.ReadsBackIffPlain | src/TelemetryManager/telemetry_manager.cpp:29-35 | for a JSON reader of this object the printed sample comes back if and only if its strings hold no quote, backslash or control character and its numbers are JSON numbers; for a raw reader, if and only if no field holds its delimiter |
| TelemetrySamples.BackslashSpoilsTheText | src/TelemetryManager/telemetry_manager.cpp:29-35 | with a backslash as identifier, which holds no quote, the JSON reader fails |
| TelemetrySamples.NanIsNotReadBack | src/TelemetryManager/telemetry_manager.cpp:31-33 | a speed printed as `nan` is not read back as JSON |
| TelemetrySamples.PlainSamplesPrintDifferently | src/TelemetryManager/telemetry_manager.cpp:29-35 | the printer is injective on samples whose strings hold no quote and whose numbers hold no delimiter |
| TelemetrySamples.QuotedSamplesCanCollide | src/TelemetryManager/telemetry_manager.cpp:29-35 | two different samples with quotes that print alike |
| Telemetry.TelemetryManager.GenerateSample | src/TelemetryManager/telemetry_manager.cpp:40-43 | a generated sample reads speed 80, rpm 2500, battery 12.6 and fuel 70 and prints them in that order; it reads back, for either reader, exactly if that reader takes identifier and timestamp as they stand |
| Telemetry.TelemetryManager.PublishSample | src/TelemetryManager/telemetry_manager.cpp:49-60 | the sample is delivered or queued last, never lost, and the result is true |
| Telemetry.TelemetryManager.QueueMessage | src/TelemetryManager/telemetry_manager.cpp:62-66 | the message is queued last |
| Telemetry.TelemetryManager.FlushQueue | src/TelemetryManager/telemetry_manager.cpp:68-83 | the pop loop computes the flush function; offline it changes nothing |
| Telemetry.AsPacketsAt | src/TelemetryManager/telemetry_manager.cpp:77 | what a flush hands to the client is, message by message, that message on the telemetry topic with qos 1 |
| Telemetry.SendAllIsFlush | src/TelemetryManager/telemetry_manager.cpp:74-83 | popping and sending message by message comes to the split that the flush function describes |
| Telemetry.TelemetryManager.PerformAll | src/TelemetryManager/telemetry_manager.cpp:49-83 | any series of calls on the object leaves the ledger those calls account for |
| Telemetry.FlushLaw | src/TelemetryManager/telemetry_manager.cpp:74-83 | old queue = delivered prefix, then nothing or the one message whose publish failed, then the new queue |
| Telemetry.LosslessIffAllPublish | src/TelemetryManager/telemetry_manager.cpp:74-81 | a flush loses nothing if and only if every publish it needs succeeds |
| Telemetry.LostCountsFailedFlushes | src/TelemetryManager/telemetry_manager.cpp:62-83 | over any series of calls the queue stays first in, first out, and the number lost equals the number of flushes that hit a publish failure |

## Left out

- Sockets, `inet_pton`, Paho itself, `recv` and `accept`: only their outcomes are modelled.
- Memory exhaustion.
- JSON objects with other members, another order or white space: the reader takes the printer's six members in order.
- Text that is not a sequence of Unicode characters: strings are sequences of `char`.
- Two controllers at once, and destroying a service while it runs.
- Data races on the unsynchronised strings of `AuthClient`.
- `pendingCount` returns the length of the queue; in the thread model it takes and releases its lock and the number is
  not recorded.
- `AuthClient::expiresAt`, the configuration accessors, `SomeipClient::publish` with one argument: one-line forwards.
- Logger, timestamp formatting and floating-point printing: number text is opaque.
- `ConnectivityRuntime`, `MqttGateway`, `DiagnosticsService`, `VehicleSignalService`, `Vehicle`: one-line bodies.
- Generated CommonAPI code, FIDL files, scripts, build files and configuration.
