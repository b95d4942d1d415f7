# Verified models of ChatCodex

Dafny models of the parts of ChatCodex where correctness depends on order, on bookkeeping over
whole runs, or on text and byte arithmetic, with proofs of what they promise.

- **The two app-server clients.** `InProcess.dfy` and `Remote.dfy` are step systems: worker, consumer,
  callers and server take turns in any order, and histories record what was read, sent, rejected and
  completed. `InProcessDelivery.dfy`, `InProcessRequests.dfy`, `InProcessCommands.dfy`,
  `InProcessShutdown.dfy`, `RemoteRouting.dfy`, `RemoteEvents.dfy` and `RemoteExit.dfy` prove invariants of
  every step and from them statements about every run. The reference views look only at histories: a ledger
  of slots for the event stream, a look-back over the traffic for replies, a table of messages for exits.
  `InProcessWorker.dfy` and `RemoteClient.dfy` hold the same code in imperative form, with loops and fields
  updated in place, proved against functions on the model state that are proved to perform runs of the
  step systems and to take everything that comes.
- **The analytics reducer.** `Reducer.dfy` gives the effect of a fact on the seven maps as a function,
  `ReducerClass.dfy` the reducer as an object whose methods, one per `ingest_*`, `emit_*` and `record_*`
  function, are proved against it; the table names the two entry points. `ReducerReports.dfy`,
  `ReducerTurns.dfy` and `ReducerApprovals.dfy` say what every map holds and when every event comes out, by
  looking back over the facts. The other `Reducer*.dfy` files prove statements about all runs:
  non-interference between threads, confluence of a turn's facts, linear emission, the context invariant,
  counters and review bookkeeping.
- **Accepted lines.** `DiffParser.dfy` has the diff parser as a loop and as a function. `DiffText.dfy` and
  `DiffLookback.dfy` say what it makes of any line and any text, `DiffPrinting.dfy` that it inverts printing a
  structured diff.
- **Queueing.** `Batching.dfy` (optimal batches) and `Dedupe.dfy` (a bounded key set against an unbounded one).
- **Smaller pieces.** `WrapperArgs.dfy` (the lint wrapper's command line) and `KeyClamp.dfy` (the Curve25519
  clamp).

`dafny verify dfyconfig.toml` checks the whole project.

Three points where code and documentation differ; the models follow the code. The documentation of the
lossless tier in `codex-rs/app-server-client/src/lib.rs:163-174` does not name `ThreadSettingsUpdated`, which the
code includes; it says both transports consult that tier, but the remote client delivers every event through an
unbounded channel; and it says a dropped server request is rejected (`codex-rs/app-server-client/src/lib.rs:205-206`),
but the one event on which a closed channel is noticed is dropped without a rejection, and so are requests still
queued when the consumer drops its receiver. For the last, `InProcessRequests.RequestMayGoUnanswered` is a run in
which it happens, and `InProcessRequests.RequestsSettleIff` and `InProcessRequests.RequestsAccountedAtConsumer` say
exactly when.

## Model

| member | source | states |
|---|---|---|
| `InProcessDelivery.ForwardingIsPositional` | codex-rs/app-server-client/src/lib.rs:151-273 | For every capacity and interleaving of worker and consumer: replacing each local lag marker by as many holes as it counts, and adding the events skipped since, gives a list as long as the events offered (less the one in hand and the one lost to a closed channel), every filled slot holding the event of its position and no hole standing at one of the seven lossless notifications; this holds exactly as long as the saturating skip counter missed no drop, so always up to `usize::MAX` events read. |
| `InProcessDelivery.ShortRunsCountAll` | codex-rs/app-server-client/src/lib.rs:237-270 | The skip counter cannot saturate in a run that reads at most `usize::MAX` events. |
| `InProcessDelivery.RunLength` | codex-rs/app-server-client/src/lib.rs:207-273 | In every run the events offered are accounted for one by one: slots of the ledger, the event in hand, the lost one, and drops at a saturated counter. |
| `InProcessDelivery.ConsumerSeesWhatWasSent` | codex-rs/app-server-client/src/lib.rs:755-757 | The channel holds as much as asked for, at least one event, and never more; what the consumer received plus what is queued is, one by one, the events and the counts the worker sent; once the receiver is gone, a prefix of it. |
| `InProcessDelivery.WaitsIff` | codex-rs/app-server-client/src/lib.rs:175-257 | The worker waits exactly with one of the seven lossless notifications in hand in front of a full, open channel; with any other event it always has a step. |
| `InProcessDelivery.ForwardingLaw` | codex-rs/app-server-client/src/lib.rs:216-272 | With room the marker or the event goes into the channel, a full channel costs the event one count and a request its rejection, a closed one costs the event and the stream. |
| `InProcessDelivery.AuthRefreshNeverSent` | codex-rs/app-server-client/src/lib.rs:555-573 | No run puts a token-refresh request into the event channel. |
| `InProcessRequests.RequestsSettleIff` | codex-rs/app-server-client/src/lib.rs:551-598 | For every run and request, readings equal deliveries plus rejections plus the one in hand exactly when the worker never put the request down in front of a closed channel; that happens at most once in a run, and not while the consumer keeps its receiver. |
| `InProcessRequests.RequestsAccountedAtConsumer` | codex-rs/app-server-client/src/lib.rs:551-598 | The balance at the consumer: every reading was consumed, rejected, is queued or in hand, was put down in front of a closed channel, or was still queued when the receiver was dropped; the last two never happen while the consumer keeps its receiver. |
| `InProcessRequests.PutDownSettlesIffOpen` | codex-rs/app-server-client/src/lib.rs:216-272 | Whenever the worker puts a request down, the step delivered or rejected it exactly when the receiver was open. |
| `InProcessRequests.RequestsExactlyOnce` | codex-rs/app-server-client/src/lib.rs:551-598 | A request read once and no longer in hand was delivered once or rejected once, never both, exactly if it was not put down in front of a closed channel; so always while the receiver is open. |
| `InProcessRequests.RequestMayGoUnanswered` | codex-rs/app-server-client/src/lib.rs:252-272 | The failing run: a request is read, the receiver dropped, and the request is neither delivered nor rejected. |
| `InProcessRequests.AuthRefreshAlwaysRejected` | codex-rs/app-server-client/src/lib.rs:555-573 | In every run a token-refresh request is rejected as often as it is read and never delivered. |
| `InProcessShutdown.ShutdownProgress` | codex-rs/app-server-client/src/lib.rs:763-795 | After the receiver is dropped and Shutdown queued, every worker step except rejecting a token refresh uses up part of a budget fixed in advance, whatever callers do; when it is used up the worker has exited. |
| `InProcessShutdown.ClosingStep` | codex-rs/app-server-client/src/lib.rs:499-601 | One step of any party keeps the closing condition and never raises the budget; a counted worker step lowers it. |
| `InProcessShutdown.NeverStuck` | codex-rs/app-server-client/src/lib.rs:499-601 | In the closing condition a worker that has not exited always has a step of its own, so it is never stuck in a must-deliver send. |
| `InProcessShutdown.WorkerExits` | codex-rs/app-server-client/src/lib.rs:499-601 | From every closing state there is a run of worker steps alone, within the budget, that ends in exit. |
| `InProcessShutdown.QueueMovesOn` | codex-rs/app-server-client/src/lib.rs:763-778 | Once the receiver is dropped, whatever callers and the runtime do, at most two worker steps other than rejecting token refreshes go by before the worker takes a command or stops, so a full command queue never blocks Shutdown for good. |
| `InProcessShutdown.ShutdownCompletes` | codex-rs/app-server-client/src/lib.rs:763-795 | From every reachable state with a live handle, however full the command queue and whatever the worker is waiting to deliver, dropping the receiver, queueing Shutdown and the worker's own steps lead to its exit, in a number of steps bounded by the capacity. |
| `InProcessCommands.CommandsInOrder` | codex-rs/app-server-client/src/lib.rs:504-550 | Commands are taken in the order they were queued, none lost and none invented. |
| `InProcessCommands.StopsExactlyWhenTold` | codex-rs/app-server-client/src/lib.rs:499-601 | The worker leaves its loop exactly when the runtime ends, every sender is gone with the queue empty, or Shutdown is next; any other command keeps it running. |
| `InProcessWorker.Worker.constructor` | codex-rs/app-server-client/src/lib.rs:491-497 | The channel has capacity at least 1 and the initial state is that of the step system. |
| `InProcessWorker.Worker.RunOutside` | codex-rs/app-server-client/src/lib.rs:755-757 | Any sequence of steps of consumer and callers, receiving, closing and queueing commands up to the capacity, changes channels and history as the step system says. |
| `InProcessWorker.Worker.CountSkipped` | codex-rs/app-server-client/src/lib.rs:237-243 | A dropped event is counted with saturation and, if it is a server request, rejected. |
| `InProcessWorker.Worker.SendLagMarker` | codex-rs/app-server-client/src/lib.rs:216-250 | The lag marker is sent, waits, is dropped with the event, or finds the channel closed, exactly as the flush step; it waits only for a lossless event in front of a full channel. |
| `InProcessWorker.Worker.SendEventInHand` | codex-rs/app-server-client/src/lib.rs:252-272 | The same for the event itself. |
| `InProcessWorker.Worker.ForwardInProcessEvent` | codex-rs/app-server-client/src/lib.rs:207-273 | Returns Continue, Disable or where it waits, with the state reached by the forwarding steps under the given schedule of consumer and callers. |
| `InProcessWorker.Worker.TakeNextCommand` | codex-rs/app-server-client/src/lib.rs:504-550 | The command branch: one command taken, exit on Shutdown or on a closed and empty queue. |
| `InProcessWorker.Worker.TakeNextEvent` | codex-rs/app-server-client/src/lib.rs:551-598 | The event branch: a token refresh is rejected, any other event forwarded, a closed channel disables the stream. |
| `InProcessWorker.Worker.Run` | codex-rs/app-server-client/src/lib.rs:499-601 | The select loop, for any order of ready branches and any schedule of consumer and callers, ends in the state the specification function gives. |
| `InProcessWorker.RoundsRun` | codex-rs/app-server-client/src/lib.rs:499-601 | That state is reached by a run of the step system, so every run-level result holds of the code. |
| `InProcessWorker.CommandRoundLaw` | codex-rs/app-server-client/src/lib.rs:504-550 | A ready command is taken, and the loop ends exactly if it is Shutdown or the queue is closed and empty. |
| `InProcessWorker.EventRoundLaw` | codex-rs/app-server-client/src/lib.rs:551-598 | A ready event is read, and the round ends with it settled or waiting as a lossless event in front of a full channel. |
| `InProcessWorker.RoundsReadAll` | codex-rs/app-server-client/src/lib.rs:499-601 | A worker still in its loop with the stream enabled has read every event that was ready, in order. |
| `RemoteRouting.WaitersCompleteOnce` | codex-rs/app-server-client/src/remote.rs:209-253 | Every dequeued request has its waiter completed exactly once unless it is still pending, and exactly once when the worker has exited. |
| `RemoteRouting.RepliesFollowTraffic` | codex-rs/app-server-client/src/remote.rs:316-325 | The completions carrying server results are exactly those called for by looking back in the traffic, and the pending map holds exactly the outstanding requests. |
| `RemoteRouting.FramesBalance` | codex-rs/app-server-client/src/remote.rs:220-253 | For each id, frames written equal replies matched, plus requests given up at exit, plus one if pending. |
| `RemoteRouting.ResultsReachTheirOwnWaiter` | codex-rs/app-server-client/src/remote.rs:316-325 | A server result reaches a waiter only as the first word on that waiter's own id after its frame was written (section 5 of JSON-RPC 2.0). |
| `RemoteRouting.TrafficHasEveryReply` | codex-rs/app-server-client/src/remote.rs:312-325 | The replies in the traffic are exactly the responses and errors read after the response to `initialize`: none overlooked, none invented. |
| `RemoteRouting.RoutingStep` | codex-rs/app-server-client/src/remote.rs:212-457 | Every step of worker, server and consumer keeps the routing invariant for any id and waiter. |
| `RemoteEvents.HandshakeIsTransparent` | codex-rs/app-server-client/src/remote.rs:822-914 | After a successful connect, returned and buffered events are exactly the recognised notifications and requests of the whole message sequence, in arrival order, wherever the `initialize` response fell, followed by at most one Disconnected, which is last and is the one for the message that ended the connection, if a message did. |
| `RemoteEvents.UnknownRequestsAreRejected` | codex-rs/app-server-client/src/remote.rs:352-384 | In both phases the attempted -32601 replies are exactly the ids of the unrecognised server requests, in order (section 5.1 of JSON-RPC 2.0). |
| `RemoteExit.ExitErrorMatchesDisconnect` | codex-rs/app-server-client/src/remote.rs:459-467 | The error kind given to abandoned requests is the one for the Disconnected event, and BrokenPipe when there was none. |
| `RemoteEvents.EventStep` | codex-rs/app-server-client/src/remote.rs:326-455 | Every step keeps the balance between messages read and events returned or buffered. |
| `RemoteExit.ConnectsIff` | codex-rs/app-server-client/src/remote.rs:822-933 | Connected, failed or still waiting is decided by the first decisive step: the response to `initialize` with a successful write, or an error reply, a fatal message, a failed write or the time limit. |
| `RemoteExit.LeavesExactlyWhen` | codex-rs/app-server-client/src/remote.rs:212-457 | In every run a running worker goes on, or leaves with exactly the Disconnected event and the error kind of the step: each fatal message its own, a failed write BrokenPipe, and quietly for a shutdown, lost senders or a closed event channel. |
| `RemoteExit.FatalMessagesEndIt` | codex-rs/app-server-client/src/remote.rs:387-455 | Over every run, no connecting or running worker has read a close, invalid JSON, a transport error or the end of the stream; after a connect such a message is the last one read, and event and error kind are the ones for it. |
| `RemoteExit.ShutdownEndsWorker` | codex-rs/app-server-client/src/remote.rs:213-309 | A shutdown command, or the loss of every sender, ends the worker for good. |
| `RemoteExit.AnswersFollowRun` | codex-rs/app-server-client/src/remote.rs:212-467 | Each step of every run gives exactly the answers called for, to the waiter found by looking back: refusal of a duplicate, failed write, result, server error, or the exit error when abandoned. |
| `RemoteClient.Client.constructor` | codex-rs/app-server-client/src/remote.rs:188-208 | A new client is in the initial state of the step system. |
| `RemoteClient.Client.Initialize` | codex-rs/app-server-client/src/remote.rs:798-933 | The handshake loop ends connected or failed, in the state the message-by-message specification gives. |
| `RemoteClient.Client.HandshakeMessage` | codex-rs/app-server-client/src/remote.rs:825-912 | One message of the handshake is one read step: buffer, reject, ignore, connect or fail. |
| `RemoteClient.Client.LeaveWith` | codex-rs/app-server-client/src/remote.rs:403-422 | A Disconnected event is queued if anyone listens, and the worker leaves with the matching error kind. |
| `RemoteClient.Client.DeliverEvent` | codex-rs/app-server-client/src/remote.rs:942-952 | An event is queued, or the worker leaves without a Disconnected event when nobody listens. |
| `RemoteClient.Client.CompletePending` | codex-rs/app-server-client/src/remote.rs:316-325 | A reply completes and removes the waiter of its id, and does nothing else when there is none. |
| `RemoteClient.Client.HandleMessage` | codex-rs/app-server-client/src/remote.rs:312-455 | One message of the worker loop is one read step. |
| `RemoteClient.Client.HandleRequest` | codex-rs/app-server-client/src/remote.rs:220-253 | A duplicate id is refused with InvalidInput; otherwise the waiter is registered and the frame written, and a failed write answers the waiter, takes it out again and disconnects. |
| `RemoteClient.Client.Work` | codex-rs/app-server-client/src/remote.rs:212-457 | The select loop over any inputs ends in the state the step-by-step specification gives. |
| `RemoteClient.Client.GiveUpOn` | codex-rs/app-server-client/src/remote.rs:459-467 | One abandoned request is completed with the exit error and removed. |
| `RemoteClient.Client.DrainPending` | codex-rs/app-server-client/src/remote.rs:459-467 | The exit loop gives up each pending request once, in whatever order, and leaves none. |
| `RemoteClient.Client.NextEventFromEither` | codex-rs/app-server-client/src/remote.rs:603-608 | Events buffered by the handshake come out first, then the channel; nothing is skipped. |
| `RemoteClient.Client.Live` | codex-rs/app-server-client/src/remote.rs:188-477 | The whole life of the client, for any messages, inputs and consumer, ends in the state the specification gives, not half drained. |
| `RemoteClient.LifetimeRuns` | codex-rs/app-server-client/src/remote.rs:188-477 | Handshake, worker loop, drain and finish, with the consumer reading or closing in between and afterwards, are one run of the step system. |
| `RemoteClient.HandshakeDecides` | codex-rs/app-server-client/src/remote.rs:822-914 | The handshake loop is decided by the first decisive message among those that come, and times out without one. |
| `RemoteClient.InputsAllTaken` | codex-rs/app-server-client/src/remote.rs:212-457 | A worker that is still running has taken every message and every request, in order. |
| `RemoteClient.ExitedClientAnsweredAll` | codex-rs/app-server-client/src/remote.rs:459-467 | A client whose worker has exited answered every request it took exactly once. |
| `ReducerIsolation.ThreadsDoNotInterfere` | codex-rs/analytics/src/reducer.rs:381-497 | If turn, request and approval ids are not shared between threads and no remaining thread has a deleted parent, deleting all facts of any set of threads from any run leaves exactly the other threads' events, in order. |
| `ReducerIsolation.SubAgentHeardIffParentWas` | codex-rs/analytics/src/reducer.rs:524-550 | A new subagent has a context exactly when its parent was known with an initialized connection. |
| `ReducerIsolation.ParentsMatter` | codex-rs/analytics/src/reducer.rs:524-550 | The condition on parents is needed: for any connection, parent and child, a run in which deleting the parent's facts takes one of the child's two events away. |
| `ReducerIsolation.EventsAbout` | codex-rs/analytics/src/reducer.rs:1070-1185 | Under that ownership every event emitted by a fact is about the fact's own thread. |
| `ReducerIsolation.GoneStep` | codex-rs/analytics/src/reducer.rs:381-497 | A fact of a deleted thread changes nothing the remaining threads depend on and adds none of their events. |
| `ReducerIsolation.StayingStep` | codex-rs/analytics/src/reducer.rs:381-497 | A fact of a remaining thread acts alike on two states that agree on what remains, and emits the same events. |
| `ReducerConfluence.TurnFactsAreConfluent` | codex-rs/analytics/src/reducer.rs:1435-1487 | With connection, metadata and start request known, the four facts of a turn, in any order and among any other facts of the turn and any foreign facts, report nothing before the last of the four, and then exactly one turn event and the accepted lines of the latest diff if it has any. Thread, context, images, config, profile and completion are the plan's for every order; start time, usage, error, steers, tools and diff are the fold of the turn's other facts since its entry was made. |
| `ReducerConfluence.SameSidesSameEvent` | codex-rs/analytics/src/reducer.rs:1435-1487 | Two complete interleavings with the same facts on the side in the same order, each between the making of the entry and the last of the four, report the same event, however the four facts and the foreign ones are placed. |
| `ReducerConfluence.PrintedDiffIsReported` | codex-rs/analytics/src/reducer.rs:2352-2380 | If the latest diff is printed from a structure, the report ends with the lines the structure adds and deletes. |
| `ReducerConfluence.OrderIrrelevantIffAgreement` | codex-rs/analytics/src/reducer.rs:606-619 | For a config that names any thread, known or not, and any image count, the two orders of config and start response report the same exactly when it agrees with the start request on both. |
| `ReducerConfluence.OwnStep` | codex-rs/analytics/src/reducer.rs:1435-1487 | A turn fact not seen yet adds its part to the entry; the event comes out, and the entry goes, exactly when it was the last part. |
| `ReducerConfluence.SideStep` | codex-rs/analytics/src/reducer.rs:1070-1182 | Any other fact of the turn only adds to what the entry has picked up and reports nothing, before and after the turn event alike. |
| `ReducerConfluence.ForeignStep` | codex-rs/analytics/src/reducer.rs:381-497 | A foreign fact leaves the turn's entry, start request and context as they are and emits no event for it. |
| `ReducerContext.ThreadLookupFailsOnlyWithoutConnection` | codex-rs/analytics/src/reducer.rs:1489-1525 | In every reachable state the thread lookup fails only for an unknown thread or one without a connection; the missing-connection and missing-metadata branches are dead. |
| `ReducerContext.ContextRun` | codex-rs/analytics/src/reducer.rs:499-550 | In every reachable state each known thread has metadata and its connection, if set, was initialized, also when inherited down a chain of subagents. |
| `ReducerContext.UpdateTurnEffect` | codex-rs/analytics/src/reducer.rs:1435-1487 | An updated turn entry is either stored, or reported once, with the lines its latest diff adds and deletes, and removed, exactly when it is complete and its connection and metadata are known. |
| `ReducerContext.TurnFrame` | codex-rs/analytics/src/reducer.rs:381-497 | A fact leaves the entries of all other turns alone and reports none of them. |
| `ReducerContext.RegistryFrame` | codex-rs/analytics/src/reducer.rs:381-497 | Only initialization, thread responses and subagent starts touch connections and threads. |
| `ReducerReports.ClientsAreRecorded` | codex-rs/analytics/src/reducer.rs:499-522 | In every reachable state a connection has the client of its last initialization. |
| `ReducerReports.ThreadsAreRecorded` | codex-rs/analytics/src/reducer.rs:524-550 | In every reachable state a thread has the connection and metadata the facts leave it with: a response on an initialized connection has the last word, a subagent start fills in what is missing, with the parent's connection. |
| `ReducerReports.ThreadContextIsHeard` | codex-rs/analytics/src/reducer.rs:1489-1525 | The context of a thread is the client of its connection and its metadata, as the facts say. |
| `ReducerReports.ThreadsAreReported` | codex-rs/analytics/src/reducer.rs:1187-1236 | A thread response is reported exactly if its connection is known, a subagent start always, with what the fact says. |
| `ReducerReports.ContextEventsAreReported` | codex-rs/analytics/src/reducer.rs:1238-1258 | Compactions and guardian facts are reported exactly for threads with a context. |
| `ReducerTurns.TurnsAreRecorded` | codex-rs/analytics/src/reducer.rs:381-497 | In every reachable state the entry of a turn is the fold of the facts about it, requests behind replies found by looking back. |
| `ReducerTurns.TurnsAreReported` | codex-rs/analytics/src/reducer.rs:1435-1487 | A fact reports a turn exactly if it closes it: one turn event with everything the entry holds, in the context the facts give, and the accepted lines of the latest diff if there are any. |
| `ReducerLines.LinesAreCounted` | codex-rs/analytics/src/reducer.rs:2352-2380 | One accepted-line event exactly if the latest diff adds or deletes a line, with both counts told from its lines. |
| `ReducerLines.PrintedDiffCounts` | codex-rs/analytics/src/reducer.rs:2352-2380 | For a printed diff these counts are those of its structure. |
| `ReducerEmission.TurnEventsAreLinear` | codex-rs/analytics/src/reducer.rs:1435-1487 | For every run and turn, turn events, plus one if the cause is waiting in the entry, never exceed the completions, the resolved configs, the profiles or the matched start responses of that turn. |
| `ReducerEmission.RequestsAreRecorded` | codex-rs/analytics/src/reducer.rs:575-604 | In every reachable state the request map holds for each key exactly the last request recorded under it that nothing answered since. |
| `ReducerEmission.SteerCause` | codex-rs/analytics/src/reducer.rs:1327-1366 | Every steer event reports a steer request recorded earlier under the same key, with that request's thread, turn, images and time, and with nothing on that key in between. |
| `ReducerEmission.SteerEventsConsumeDistinctRequests` | codex-rs/analytics/src/reducer.rs:1302-1325 | Two steer events report two different requests, each the one recorded for its own reply. |
| `ReducerEmission.SteerEventsAreLinear` | codex-rs/analytics/src/reducer.rs:1302-1366 | Over every run, steer events plus steers still waiting never exceed the steer requests. |
| `ReducerEmission.UnmatchedReplyIsSilent` | codex-rs/analytics/src/reducer.rs:1020-1068 | A reply on a key with no recorded request changes nothing and emits nothing. |
| `ReducerReports.SteerRepliesAreReported` | codex-rs/analytics/src/reducer.rs:1302-1366 | A reply to a steer request is reported exactly if the request was recorded and client and thread are known, with everything request and reply say. |
| `ReducerCounters.CountersAgree` | codex-rs/analytics/src/reducer.rs:1093-1106 | In every reachable state a turn's total is the sum of the seven kinds, each kind is the number of such items completed since the entry was made, and the steer count the accepted steers naming it since. |
| `ReducerCounters.MadeAt` | codex-rs/analytics/src/reducer.rs:381-497 | Every turn entry was made by some fact of the run and has been there ever since. |
| `ReducerCounters.TurnEventReportsCounters` | codex-rs/analytics/src/reducer.rs:2474-2482 | Every turn event of every run reports exactly the counts reached since its turn's entry was made by some earlier fact. |
| `ReducerCounters.ReportedCounters` | codex-rs/analytics/src/reducer.rs:1435-1487 | No single fact makes a turn complete: whatever is reported had an entry before, with these counters. |
| `ReducerReviews.UserReviewsAnswerRequests` | codex-rs/analytics/src/reducer.rs:935-978 | Over every run, user review events plus requests still waiting never exceed the approval requests recorded. |
| `ReducerApprovals.PendingAreAsked` | codex-rs/analytics/src/reducer.rs:819-933 | In every reachable state exactly the unanswered approval requests are pending, and each pending review says what its request asked: where, about what, why, since when and for which access. |
| `ReducerReports.RepliesToApprovalsAreReported` | codex-rs/analytics/src/reducer.rs:935-1018 | A reply to a recorded approval request is reported exactly if the request's thread has a context, once, with the request's review, the reply's verdict and time. |
| `ReducerReports.GuardianReportsAreReported` | codex-rs/analytics/src/reducer.rs:1260-1300 | A finished guardian review with usable times is reported exactly if its thread has a context, with its subject, trigger, verdict and time. |
| `ReducerReviews.SummariesReflectReviews` | codex-rs/analytics/src/reducer.rs:1416-1433 | In every reachable state an item has a summary exactly when the facts since it was last cleared hold a review of it: a reply to a command request without network context or to a file request naming it, found by looking back, or a finished guardian report on it. The summary states how often, by whom, the latest outcome and what those requests asked for. |
| `ReducerReviews.ToolEventReportsReviews` | codex-rs/analytics/src/reducer.rs:1951-1989 | A tool event counts the item's reviews since last cleared, its outcome is that of the latest and Unknown exactly when there was none, it grants, refuses, names a guardian or grants for the session exactly as the fact that finished that latest review did, and it reports permissions and network access exactly when one of them asked. |
| `ReducerReviews.ToolEventStep` | codex-rs/analytics/src/reducer.rs:1107-1143 | A tool event comes only from the completion of a started item of a known turn and thread, with its start and completion times, status and review summary. |
| `ReducerReports.StartsAreRecorded` | codex-rs/analytics/src/reducer.rs:1076-1092 | In every reachable state the recorded start of an item is its last usable start not yet used up, found by looking back. |
| `ReducerReports.CompletionsAreReported` | codex-rs/analytics/src/reducer.rs:1093-1143 | The completion of a tool item is reported exactly if its turn has an entry, it was started and not yet used up, its times are usable, its thread has a context and it is over; with its own start, end and status. |
| `ReducerClass.AnalyticsReducer.Ingest` | codex-rs/analytics/src/reducer.rs:381-497 | One fact updates the seven maps and appends events exactly as the specification function of the reducer. |
| `ReducerClass.AnalyticsReducer.IngestAll` | codex-rs/analytics/src/client.rs:62-72 | A queue of facts leaves the reducer in the state, and emits the events, of the specification run. |
| `DiffParser.AcceptedLineFingerprints` | codex-rs/analytics/src/accepted_lines.rs:30-83 | The loop computes the line-by-line specification: counts and fingerprints under the path in force. |
| `DiffPrinting.ParseInvertsPrint` | codex-rs/analytics/src/accepted_lines.rs:30-83 | For every list of well-formed file diffs, parsing the printed text gives exactly the added and deleted counts of the structure and one fingerprint, singly spaced, for each added line that has a letter, digit or underscore and takes more than three bytes, under the new path, even where body text imitates headers. |
| `DiffPrinting.ParseConcatenation` | codex-rs/analytics/src/accepted_lines.rs:38-45 | For arbitrary text: what starts with `diff --git` parses apart from the complete lines before it, and the results add up. |
| `DiffPrinting.NewNameReadBack` | codex-rs/analytics/src/accepted_lines.rs:143-155 | A new name in a header is read back without its prefix and trailing white space. |
| `DiffPrinting.PathSurvivesIff` | codex-rs/analytics/src/accepted_lines.rs:143-155 | The path the parser reads back from its header line is the path itself exactly when that does not end in white space. |
| `DiffPrinting.NormalizeIsIdempotent` | codex-rs/analytics/src/accepted_lines.rs:157-169 | A normalized line is its own normal form. |
| `DiffPrinting.CountsIgnoreAlphabet` | codex-rs/analytics/src/accepted_lines.rs:30-83 | The counts do not depend on which characters are alphanumeric. |
| `DiffText.FingerprintIffEffective` | codex-rs/analytics/src/accepted_lines.rs:157-169 | A line leaves a fingerprint exactly if it has a letter, digit or underscore and its words, with one byte between them, take more than three bytes; the fingerprint is of its words, singly spaced. |
| `DiffText.HeaderPathLaw` | codex-rs/analytics/src/accepted_lines.rs:143-155 | The path a header names is what stands between white space, without `a/` or `b/` in front, and none for the null device; a blank header names the empty path. |
| `DiffLookback.ParseLooksBack` | codex-rs/analytics/src/accepted_lines.rs:30-83 | For any text whatever, counts and fingerprints are those of its lines, each judged by the last file header, hunk header and new name before it. |
| `DiffLookback.LastLineNeedsNoNewline` | codex-rs/analytics/src/accepted_lines.rs:30-38 | A last line without its newline counts like any other. |
| `Batching.TrackEventRequestBatches` | codex-rs/analytics/src/client.rs:427-448 | The batches concatenate to the input, none is empty, isolated events are alone, and no order-preserving split of that kind has fewer batches. |
| `Batching.SplitNeeds` | codex-rs/analytics/src/client.rs:427-448 | Every such split has at least one batch per isolated event and per run of other events. |
| `Dedupe.BlocksHaveNoRepeats` | codex-rs/analytics/src/client.rs:86-117 | The key set never exceeds 4096, and in any run no key repeats within a block of 4096 accepted calls. |
| `Dedupe.AnswersAsUnbounded` | codex-rs/analytics/src/client.rs:86-117 | With fewer than 4096 distinct keys so far every answer is that of a set that is never emptied. |
| `Dedupe.FullSetForgets` | codex-rs/analytics/src/client.rs:86-117 | The bound is sharp: after 4096 distinct keys every key is accepted again. |
| `Dedupe.EmittedKeys.ShouldEnqueue` | codex-rs/analytics/src/client.rs:103-117 | The set is emptied at 4096, then the key is inserted; the answer says whether it was new. |
| `Dedupe.EmittedKeys.ShouldEnqueueApp` | codex-rs/analytics/src/client.rs:86-101 | An app without a connector id is always let through and leaves the set alone. |
| `WrapperArgs.ParseWrapperArgs` | tools/argument-comment-lint/wrapper_common.py:55-104 | The loop with its pending-value state reads the command line as the grammar does, option by option, dangling options included. |
| `WrapperArgs.ReadOption` | tools/argument-comment-lint/wrapper_common.py:81-102 | The order of the tests does not matter: each argument sets exactly its own flag or waits for a value. |
| `WrapperArgs.FlagsAreSaid` | tools/argument-comment-lint/wrapper_common.py:55-104 | The flags are what the arguments say one by one, each either the value of the option in front of it or an option itself. |
| `WrapperArgs.RewritingSpelledOut` | tools/argument-comment-lint/wrapper_common.py:55-122 | The whole rewriting from the command line itself: each default is added exactly when no argument says otherwise, `--all-targets` unless fixing or a listed target option is there. |
| `WrapperArgs.BuildFinalArgs` | tools/argument-comment-lint/wrapper_common.py:107-122 | Missing defaults in front, the user's lint arguments, then the separator and cargo arguments if any. |
| `WrapperArgs.PartsMakeWhole` | tools/argument-comment-lint/wrapper_common.py:60-74 | Lint and cargo arguments around the first separator make up the whole command line. |
| `WrapperArgs.ArgumentsSurvive` | tools/argument-comment-lint/wrapper_common.py:107-122 | Parsing the rebuilt command line finds the user's arguments again, complete and in order, behind the defaults. |
| `WrapperArgs.RewriteIsIdempotentIff` | tools/argument-comment-lint/wrapper_common.py:55-122 | Rewriting a rewritten command line changes nothing exactly when the manifest path is not `--` or was given by the user. |
| `KeyClamp.SecretKeyFromDigest` | codex-rs/agent-identity/src/lib.rs:379-387 | The in-place byte operations give the clamp of the digest's first 32 bytes. |
| `KeyClamp.ClampValue` | codex-rs/agent-identity/src/lib.rs:383-385 | As a little-endian number the clamp keeps bits 3 to 253, clears the lower three and bit 255, and sets bit 254. |
| `KeyClamp.ClampedRange` | codex-rs/agent-identity/src/lib.rs:383-385 | Every clamped key is a multiple of 8 between 2^254 and 2^255 - 1 (section 5 of RFC 7748). |
| `KeyClamp.ClampIsIdempotent` | codex-rs/agent-identity/src/lib.rs:383-385 | Clamping twice equals clamping once. |

## Left out

- `codex-rs/app-server-client/src/remote.rs`: WebSocket, TLS and Unix-socket setup, URL checks and JSON encoding; whether a message is recognised and whether a write succeeds are inputs of the model.
- `codex-rs/app-server-client/src/remote.rs`: the time limit of the handshake is a step that may happen at any moment.
- `codex-rs/app-server-client/src/remote.rs`: the kind of error a failed connect returns, and the server version read from the response.
- `codex-rs/app-server-client/src/remote.rs`: notify, resolve and reject commands write one frame and answer their caller; only that they leave requests and events alone is modelled.
- `codex-rs/app-server-client/src/lib.rs`: the embedded runtime behind the client is an event source and a log of rejections; request, notify, resolve and reject commands are one kind of command that does not touch the event stream.
- `codex-rs/app-server-client/src/lib.rs`: the time limits around joining the worker in `shutdown` and the abort after them.
- `codex-rs/analytics/src/reducer.rs`: skill, app, hook and plugin facts, which emit without touching the maps; they are the fact `Ignored`.
- `codex-rs/analytics/src/reducer.rs`: payloads of events beyond the fields the results mention; configs, profiles, usages and errors are opaque values, and ids are opaque tokens.
- `codex-rs/analytics/src/reducer.rs`: the counters are unbounded numbers; overflow of the source's 64-bit ones is not modelled.
- `codex-rs/analytics/src/reducer.rs`: the clock, the repository hash and the fingerprint list in the accepted-line event (what the parser makes of a diff is stated in `DiffLookback.dfy`), and the warnings logged when a context is missing.
- `codex-rs/analytics/src/accepted_lines.rs`: the SHA-1 of path and line; a fingerprint is the pair that gets hashed.
- `codex-rs/analytics/src/accepted_lines.rs`: `char::is_alphanumeric` is a parameter, so the results hold for any such class.
- `codex-rs/analytics/src/client.rs`: sending the batches, authentication, and the bounded queue in front of the reducer, which may drop facts; results about runs are about the facts that reach it.
- `codex-rs/agent-identity/src/lib.rs`: SHA-512, signatures, tokens and key encodings.
- The other crates, the TypeScript and Python packages, scripts and the user interfaces.
