# Verification of rito

A Dafny model of rito, a C++ library that talks to a running League of Legends client (the LCU), with
proofs about the three parts of it that carry state machines, loops or string algorithms:

- **the connection engine**: the websocket client, the connection handler that keeps reconnecting it, and
  the handler's behaviour when other threads call `stop()` and `send_message()`;
- **the message pipeline**: reassembly of messages from frames, the WAMP dispatch of what is received, and the
  JSON text of what is sent;
- **the launch-command lookup**: the process scan, the two regular-expression searches and the port conversion.

`dafny verify dfyconfig.toml` checks everything.

## Layout

| file | contents |
|---|---|
| `Outcomes.dfy`, `Decimal.dfy`, `Strings.dfy` | option and result types, decimal text, runs and occurrences |
| `LaunchPattern.dfy` | backtracking regular-expression search, and the one-pass scanner it equals |
| `LaunchCommand.dfy` | the extractors, and how they undo joining an argument list |
| `ProcessLookup.dfy` | the process scan as a method, the port conversion, the lookup as a whole |
| `FrameReassembly.dfy` | one `receive_message` call as a function, fragmentation, conservation |
| `HttpsWebsocketClient.dfy` | the client as a class, its reassembly loop proved against that function |
| `ConnectionSession.dfy` | one pass of the connection loop as a function, the callback language, whole runs |
| `PeerStreams.dfy` | what a peer makes the handler say, whatever the sizes of its messages and however its stream breaks |
| `LcuWebsocketHandler.dfy` | the connection handler as a class, proved against those functions |
| `ThreadInterleaving.dfy` | the handler under concurrency: one step per shared read, write, lock and unlock |
| `ThreadInvariants.dfy` | what holds in every reachable state |
| `ThreadRefinement.dfy` | every interleaving is a sequence of whole passes |
| `ThreadTheorems.dfy` | null-safety, shutdown, lock discipline, progress, the gap between check and use |
| `ThreadWakeUp.dfy` | the "Exit" message of `stop()`: no reception is left without it |
| `JsonArrays.dfy` | a reader for JSON arrays of integers and strings, and when a string reads as itself |
| `WampText.dfy` | the texts sent, and what they read as |
| `LcuWampHandler.dfy` | dispatch, the WAMP handler as a class, and the path from frames to user callbacks |

The connection engine is told three times, and the three are tied together. `ConnectionSession.Turn` and
`Halt` say what one pass of the loop does. The classes implement them: `LcuWebsocketHandler.MainLoop` ends in the
state these functions give. The concurrent model splits a pass into its single steps, and
`ThreadRefinement.SchedulesRefinePasses` shows that every schedule, with any number of calls in progress, still
amounts to whole passes. What whole runs say to their callbacks is then proved once, about the functions
(`ConnectionSession.Story`, a telling by connection attempts instead of by loop passes), and holds for all three.

## Conventions

- A `string` stands for a C++ char buffer, one character a byte.
- The outcomes of the `receiveFrame` calls of a connection are a finite list; after it the peer has closed, and
  `receiveFrame` returns 0 with flags 0. A frame carries the first byte of its header (section 5.2 of RFC 6455).
- What a run meets is a script, quantified over in every theorem: for each attempt to connect, the process directory
  (or the result of looking the client up in it) and whether the connection is accepted. After its last entry
  the client is not running. A client constructor that throws counts as a failed lookup, `set_credentials` throwing as
  a refused connection.
- An exception is a `Result`, an `Option` or a boolean; the error constructors name the exception classes.
- All three callbacks of the connection handler are registered, as the WAMP handler's constructor does; the user
  callbacks of the WAMP handler may or may not be.
- The loop of `run()` ends when it reads the stop flag set. The sequential model takes the number of passes
  before that as a parameter; the concurrent one leaves it to the schedule.

Assumptions of the concurrent model: memory is sequentially consistent; there is one runner thread; callbacks are
registered before `run()`, do not throw and do not call `run()`; a blocked reception returns; no destructor runs
while a thread is inside a member function.

## Where the code and its documentation differ

The model follows the code.

- `subscribe` and `unsubscribe` send no closing bracket, so their texts are no JSON array whatever the event
  (`SubscriptionLacksItsBracket`), and the `call` without arguments carries the SUBSCRIBE code
  (`CallWithoutArgumentsSubscribes`).
- `get_lcu_process_parameters` can throw `std::out_of_range`, which its documentation does not list: the port
  text is only known to be digits. With both options found, it does so exactly
  when the value is above 2^31-1 (`LookupOutcome`).
- A message over 255 frames is not dropped: its head is reported as an error, its last 1 to 255 frames are delivered
  as a message (`DrainOfMessage`). A timeout is reported as "not started", and the frames already read are lost
  (`TimeoutLosesHead`).
- An empty frame inside a message reads as a disconnection (`FragmentationRoundTrip`).
- `stop()` and `send_message()` check the socket and use it later. The pointer they use can have been reset in between:
  `UseCanMeetNull` shows that this can happen to a call exactly if it is made outside the callbacks, and
  `UseAfterCheck` says in which states it has.
- The process handler's documentation calls the token base64; the pattern accepts letters, digits, `-` and `_`. A token
  with another character is cut there without an error (`Base64TokenIsCut`); which tokens come back is settled by
  `ExtractionInvertsJoin` and `LaunchRoundTrip`.

## Model

| member | source | states |
|---|---|---|
| `Decimal.ValueOfPrint` | src/platform/linux/lcu_process_handler_impl_linux.cpp:24-26 | reading back a decimal number gives the number |
| `Decimal.ValueOfLeadingZero` | src/platform/linux/lcu_process_handler_impl_linux.cpp:24-26 | leading zeros do not change the number read |
| `LaunchPattern.ScanFindsFirst` | src/lcu_process_handler_helpers.cpp:10-12 | the scanner returns the value at the first position where the option text is followed by a non-empty maximal run and a further character, and fails exactly when there is none |
| `LaunchPattern.SearchIsScan` | src/lcu_process_handler_helpers.cpp:8-31 | leftmost backtracking search of either pattern, for any option text and class, captures exactly what the one-pass scanner finds; giving characters back never changes it |
| `LaunchCommand.AppPortIsPositiveInteger` | src/lcu_process_handler_helpers.cpp:21-31 | the extracted port text is a non-empty string of digits |
| `LaunchCommand.ScanOfJoin` | src/lcu_process_handler_helpers.cpp:8-31 | on a joined argument list the search finds what the first argument with a value of its own yields; no occurrence straddles two arguments |
| `LaunchCommand.ExtractionInvertsJoin` | src/lcu_process_handler_helpers.cpp:8-31 | where the first argument that mentions the option is the option followed by a text, that text is extracted exactly when it is non-empty and of the class; one that only begins so is cut at the first other character; later arguments never matter |
| `LaunchCommand.Base64TokenIsCut` | src/lcu_process_handler_helpers.cpp:8-19 | the base64 token `ab+cd` is extracted as `ab` |
| `LaunchCommand.RiotClientPortIsNotAppPort` | src/lcu_process_handler_helpers.cpp:23-23 | the Riot client's own port option never contains `--app-port=` |
| `ProcessLookup.GetLcuProcessCommand` | src/platform/linux/lcu_process_handler_impl_linux.cpp:29-56 | returns the first line of the first entry whose stem is a number and whose line contains `LeagueClientUx.exe`; fails exactly when every entry lacks one or the other, by "not running" or, if iteration broke off, by "path not found" |
| `ProcessLookup.GetLcuProcessParameters` | src/platform/linux/lcu_process_handler_impl_linux.cpp:19-27 | computes `Parameters`, about which the following lemmas are |
| `ProcessLookup.LookupOutcome` | src/platform/linux/lcu_process_handler_impl_linux.cpp:19-56 | exactly which directories make the lookup fail with each of its four errors, which make it succeed, and with what; the entries to be skipped are described by their stems and lines, and the first other entry's line decides alone |
| `ProcessLookup.StemStopsAtLastDot` | src/platform/linux/lcu_process_handler_impl_linux.cpp:35-39 | the stem of a name is what precedes its last dot; a name without a dot, but for one at its front, is its own stem |
| `ProcessLookup.ProcessIdIsAccepted` | src/lcu_process_handler_helpers.cpp:33-38 | a directory named by a process id always counts as a process |
| `ProcessLookup.FirstLineStopsAtNewline` | src/platform/linux/lcu_process_handler_impl_linux.cpp:41-43 | the command is the text before the first newline |
| `ProcessLookup.LookupInvertsLaunch` | src/platform/linux/lcu_process_handler_impl_linux.cpp:19-56 | for any launch with any texts after the two options, and any other processes, the lookup returns the parts of them the patterns capture, the port converted; it returns the whole token only if that is non-empty and of the class |
| `ProcessLookup.PortRoundTrip` | src/platform/linux/lcu_process_handler_impl_linux.cpp:24-26 | a printed number converts exactly up to 2^31-1, to its value modulo 65536, and comes back unchanged exactly below 65536 |
| `ProcessLookup.LaunchRoundTrip` | src/platform/linux/lcu_process_handler_impl_linux.cpp:19-56 | launch, scan, extraction and conversion together, whatever other processes come before, return the launched token and port exactly when the token is a non-empty text of letters, digits, `-` and `_` and the port is below 65536 |
| `FrameReassembly.Assemble` | src/https_websocket_client.cpp:106-133 | a reception that keeps the connection consumes at least one frame, so receptions on any wire come to an end |
| `FrameReassembly.AssembleTakesLead` | src/https_websocket_client.cpp:104-133 | one reception takes every frame up to the first that asks for no continuation and is decided by it, unless 255 continuing frames come first |
| `FrameReassembly.MessageLengthBound` | src/https_websocket_client.cpp:18-19 | no returned message exceeds 65536 * 255 = 16711680 bytes, which fits 32 bits |
| `FrameReassembly.DrainOfMessage` | src/https_websocket_client.cpp:106-133 | a message of n frames is consumed exactly, giving ceil(n/255)-1 size errors and the text of its remaining frames; what follows is received as if it came first |
| `FrameReassembly.Overruns` | src/https_websocket_client.cpp:110-131 | after its size errors a message has 1 to 255 frames left |
| `FrameReassembly.DrainOfMessages` | src/https_websocket_client.cpp:106-133 | the same for any stream of messages of any sizes |
| `FrameReassembly.TimeoutLosesHead` | src/https_websocket_client.cpp:104-133 | a timeout inside a message of any length: the frames before it give floor(k/255) size errors and one timeout error, those after it are delivered as if they were the whole message |
| `FrameReassembly.HeadEnds` | src/https_websocket_client.cpp:104-151 | a message broken off by a timeout, a failure or a close: its size errors, then one error that says which; after the last two nothing more is received |
| `FrameReassembly.ConcatOfTwo` | src/https_websocket_client.cpp:108-112 | pieces are appended in order |
| `FrameReassembly.FragmentationRoundTrip` | src/https_websocket_client.cpp:104-133 | a text cut into pieces and framed as section 5.4 of RFC 6455 says is received whole exactly when there are at most 255 pieces and no empty one strictly inside |
| `FrameReassembly.ConnectionRoundTrip` | src/https_websocket_client.cpp:100-154 | any number of such messages come out in order, unchanged, before the disconnection |
| `WebsocketClient.HttpsWebsocketClient.Start` | src/https_websocket_client.cpp:57-76 | opens an unopened client exactly when the peer accepts, fails otherwise, and leaves an open client alone |
| `WebsocketClient.HttpsWebsocketClient.Stop` | src/https_websocket_client.cpp:78-86 | leaves the client without a websocket and not connected if it was open |
| `WebsocketClient.HttpsWebsocketClient.SendMessage` | src/https_websocket_client.cpp:88-98 | sends exactly when there is a websocket |
| `WebsocketClient.HttpsWebsocketClient.ReceiveMessage` | src/https_websocket_client.cpp:100-154 | the loop with its 8-bit counter computes `Receive` on every wire, without the counter wrapping |
| `ConnectionSession.PhaseIsGrammar` | src/lcu_websocket_handler.cpp:68-85 | the trace reader accepts exactly the prefixes of (Connected Message* Disconnected)* |
| `ConnectionSession.ReconnectByCases` | src/lcu_websocket_handler.cpp:43-60 | what `reconnect` leaves in each case: connected already, no client running, lookup failed, refused, accepted |
| `ConnectionSession.TurnKeepsLoopHead` | src/lcu_websocket_handler.cpp:43-115 | a pass keeps: a connected socket has been announced, is open, and the trace agrees with the flag |
| `ConnectionSession.HaltComesToRest` | src/lcu_websocket_handler.cpp:121-129 | the stop branch leaves no socket, nothing announced, and complete episodes |
| `ConnectionSession.RunsComeToRest` | src/lcu_websocket_handler.cpp:26-140 | after any sequence of runs, whatever happened in them, the same holds |
| `ConnectionSession.RunTellsStory` | src/lcu_websocket_handler.cpp:87-140 | the callbacks of a run are, attempt by attempt, an episode of the texts its peer's receptions returned, and nothing for a reception that failed |
| `ConnectionSession.StoryOfAttempt` | src/lcu_websocket_handler.cpp:87-115 | the story by cases: a failed lookup and a refused connection say nothing; an accepted one says connected, the texts received whole, disconnected, cut short where the run stops |
| `PeerStreams.MessageIsHeardOnce` | src/lcu_websocket_handler.cpp:87-101 | a message of any number of frames makes exactly one message callback, carrying its last 1 to 255 frames |
| `PeerStreams.TimeoutIsSilent` | src/lcu_websocket_handler.cpp:96-100 | a timeout makes no callback |
| `PeerStreams.EndingIsSilent` | src/lcu_websocket_handler.cpp:96-100 | neither does a close or a failure, and nothing after it is heard |
| `PeerStreams.StreamIsHeard` | src/lcu_websocket_handler.cpp:87-140 | any connection, with messages of any size, any of them broken by timeouts, and any ending: its episode has one message callback for each message, in order, and no other |
| `ConnectionSession.CleanPeersAreHeard` | src/lcu_websocket_handler.cpp:87-140 | attempts fail or find a peer, in any order; with peers whose messages survive their fragmentation, every message of every peer is delivered once, in order, in that peer's episode, and a failed attempt says nothing |
| `WebsocketHandler.LcuWebsocketHandler.ResetSocket` | src/lcu_websocket_handler.cpp:123-126 | stops the client and leaves none |
| `WebsocketHandler.LcuWebsocketHandler.Reconnect` | src/lcu_websocket_handler.cpp:43-60 | the new state and success of `reconnect`; a new client carries the port and token of the lookup just made |
| `WebsocketHandler.LcuWebsocketHandler.NotifyConnectionStateChanged` | src/lcu_websocket_handler.cpp:68-85 | makes the callback of a change, and only of a change |
| `WebsocketHandler.LcuWebsocketHandler.ReceiveMessage` | src/lcu_websocket_handler.cpp:87-101 | passes a received text on, and makes no callback when the reception fails |
| `WebsocketHandler.LcuWebsocketHandler.ReconnectAndNotify` | src/lcu_websocket_handler.cpp:103-115 | ends in the state the session function gives, failures included |
| `WebsocketHandler.LcuWebsocketHandler.MainLoop` | src/lcu_websocket_handler.cpp:117-140 | the loop ends in the state of that many passes and a halt |
| `WebsocketHandler.LcuWebsocketHandler.Run` | src/lcu_websocket_handler.cpp:26-31 | a run tells its callbacks the story of its attempts and leaves the handler without a socket, nothing announced and the episodes complete |
| `WebsocketHandler.LcuWebsocketHandler.Stop` | src/lcu_websocket_handler.cpp:33-41 | sets the flag and sends "Exit" exactly if the session's socket is connected and open |
| `WebsocketHandler.LcuWebsocketHandler.SendMessage` | src/lcu_websocket_handler.cpp:159-168 | sends the message and reports success exactly if the session's socket is connected and open, which at a loop head is to say connected |
| `WebsocketHandler.LaunchedClientIsReached` | src/lcu_websocket_handler.cpp:51-59 | a running client that accepts the connection is reached, and with its own token and port exactly when its token is a non-empty text of letters, digits, `-` and `_` and its port below 65536 |
| `ThreadInvariants.LocksStayAgreed` | src/lcu_websocket_handler.cpp:43-66 | every step keeps: the mutex is held by exactly the thread inside a locked region |
| `ThreadInvariants.RunnerStaysInformed` | src/lcu_websocket_handler.cpp:43-140 | every runner step keeps what the runner knows of the pointer, its client and the flag at each point |
| `ThreadInvariants.TraceStaysAgreed` | src/lcu_websocket_handler.cpp:68-101 | every runner step keeps the trace in the callback language, in step with the flag |
| `ThreadInvariants.EventsAreCallbacks` | src/lcu_websocket_handler.cpp:68-101 | the runner is inside a callback, without the mutex, exactly after a step that added an event to the trace |
| `ThreadInvariants.HistoryStaysAgreed` | src/lcu_websocket_handler.cpp:47-56 | a client is only ever assigned to an empty pointer |
| `ThreadInvariants.CallsKeepRemembering` | src/lcu_websocket_handler.cpp:62-66 | every step keeps: a call past its check saw the client the pointer then held |
| `ThreadInvariants.CountsStayAgreed` | src/lcu_websocket_handler.cpp:103-109 | every runner step keeps started clients and connected callbacks in balance |
| `ThreadInvariants.ClientsStayAgreed` | src/lcu_websocket_handler.cpp:51-59 | every runner step keeps: each client comes from the lookup of an attempt of its own |
| `ThreadInvariants.StepKeepsInv` | src/lcu_websocket_handler.cpp:26-168 | every step of every thread keeps all invariants |
| `ThreadRefinement.PassIsAtomic` | src/lcu_websocket_handler.cpp:43-140 | no step inside a pass changes how the pass ends |
| `ThreadRefinement.SchedulesRefinePasses` | src/lcu_websocket_handler.cpp:117-140 | along every schedule the runner's state is that of the undisturbed passes its stop checks called for |
| `ThreadRefinement.OneStopPerRun` | src/lcu_websocket_handler.cpp:119-139 | within a run every stop check but the last lets the loop go on, and the last ends it |
| `ThreadRefinement.OnlyStopEndsRun` | src/lcu_websocket_handler.cpp:26-41 | whatever the flag was before, a run goes on at every stop check until a `stop()` made since it began has set the flag; a run that has returned was told so |
| `ThreadRefinement.RunAmongThreadsTellsStory` | src/lcu_websocket_handler.cpp:26-140 | a run among other threads, from its beginning to its return, tells the story of its attempts over exactly as many passes as its stop checks let go on |
| `ThreadTheorems.RunnerNeverMeetsNull` | src/lcu_websocket_handler.cpp:87-101 | in every reachable state the pointer the runner dereferences without the lock is non-null and its client connected and open |
| `ThreadTheorems.CallbacksFollowTheLanguage` | src/lcu_websocket_handler.cpp:68-140 | in every reachable state the callbacks are a prefix of complete episodes, complete and with nothing left behind once `run()` has returned |
| `ThreadTheorems.OneConnectionPerNotification` | src/lcu_websocket_handler.cpp:43-60 | connected callbacks count successful starts, each of a client object of its own, built from a lookup of its own |
| `ThreadTheorems.DroppedClientIsNotUsedAgain` | src/lcu_websocket_handler.cpp:47-50 | a client that failed to start or lost its connection is never received from again |
| `ThreadTheorems.CheckDecides` | src/lcu_websocket_handler.cpp:36-36 | a call goes on from its check to its use exactly if it saw a connected client |
| `ThreadTheorems.UseAfterCheck` | src/lcu_websocket_handler.cpp:33-41 | at its use after a check the pointer is null exactly when the runner reset it since and did not assign it again; without a reset it is the client checked |
| `ThreadTheorems.CallbackUseIsSafe` | src/lcu_websocket_handler.cpp:159-168 | a call made from inside a callback uses the client it checked, never a null pointer |
| `ThreadTheorems.UseCanMeetNull` | src/lcu_websocket_handler.cpp:159-168 | call number i, of either kind, can come to use a null pointer if and only if it is not made from inside a callback (i is not 0) |
| `ThreadTheorems.NoSelfDeadlock` | src/lcu_websocket_handler.cpp:62-66 | no thread asks for the mutex while holding it, calls made inside callbacks included |
| `ThreadTheorems.PointerIsGuarded` | src/lcu_websocket_handler.cpp:43-66 | every assignment to the pointer, every check and the use in `send_message` happen under the mutex |
| `ThreadTheorems.HolderCanMove` | src/lcu_websocket_handler.cpp:43-66 | the holder of the mutex can move, unless it is a `send_message` whose pointer has been reset |
| `ThreadTheorems.HolderReleases` | src/lcu_websocket_handler.cpp:43-60 | every step of the holder, a lookup or start that throws included, brings it nearer to the release, at most five steps away |
| `ThreadTheorems.SomeThreadCanMove` | src/lcu_websocket_handler.cpp:33-168 | while the runner is inside `run()` some thread can take a step, unless a call is about to use a null pointer |
| `ThreadTheorems.ShutdownIsBounded` | src/lcu_websocket_handler.cpp:117-140 | once the flag is set and until another run begins, on every schedule, the runner takes at most 19 more steps, makes at most three more callbacks, and passes at most one message on or makes at most one attempt to connect, not both |
| `ThreadTheorems.RunnerWaitsForOthersOnly` | src/lcu_websocket_handler.cpp:117-140 | only the mutex in another thread's hands, or a call its own callback makes, keeps the runner waiting |
| `ThreadWakeUp.StepKeepsWaking` | src/lcu_websocket_handler.cpp:33-41 | every step of every thread keeps: past a stop check, a flag set since comes with an "Exit" sent to, or on its way to, the client about to be received from |
| `ThreadWakeUp.StopWakesReception` | src/lcu_websocket_handler.cpp:33-41 | no wake-up is lost: whenever the runner is in a reception with the flag set, that client has been sent "Exit" or a `stop()` in progress is bound for it |
| `ThreadWakeUp.BoundCallArrives` | src/lcu_websocket_handler.cpp:33-41 | while the reception lasts, that `stop()` stays bound for that client and has sent to it after at most four steps of its own |
| `ThreadWakeUp.UseIsRecorded` | src/lcu_websocket_handler.cpp:159-165 | a call of either kind that uses an open client is recorded as having sent to it, and no other step is |
| `JsonArrays.TextReadsAsItself` | include/rito/lcu_wamp_handler.h:268-271 | a string put between quotes as it stands reads as itself exactly when it has no quote, backslash or control character |
| `JsonArrays.EscapedTextIsRead` | include/rito/lcu_wamp_handler.h:268-271 | an escaped string reads as the string, whatever it is |
| `JsonArrays.ArrayEndsWithBracket` | src/lcu_wamp_handler.cpp:98-99 | a text that ends in neither a bracket nor white space is no array |
| `JsonArrays.RenderRoundTrip` | include/rito/lcu_wamp_handler.h:268-271 | an array of a number and strings written without escapes reads back whole exactly when all strings are plain |
| `WampText.CallRoundTrip` | include/rito/lcu_wamp_handler.h:263-274 | the call text reads as [2, id, function, args...] exactly when id, function and all arguments are plain |
| `WampText.EscapedCallRoundTrip` | include/rito/lcu_wamp_handler.h:263-274 | with strings escaped by the caller it does so for all strings |
| `WampText.CallTextIsInjective` | include/rito/lcu_wamp_handler.h:263-274 | different plain calls have different texts |
| `WampText.CallWithoutArgumentsSubscribes` | src/lcu_wamp_handler.cpp:199-205 | the text of the call without arguments only ever reads as a message with code 5, and as [5, id, function] exactly when both are plain |
| `WampText.SubscriptionLacksItsBracket` | src/lcu_wamp_handler.cpp:96-108 | the subscription texts never read as an array; with a bracket added they say what was meant exactly when the event is plain |
| `WampHandler.LcuWampHandler.OnConnected` | src/lcu_wamp_handler.cpp:110-116 | makes the connected callback if it is registered |
| `WampHandler.LcuWampHandler.OnDisconnected` | src/lcu_wamp_handler.cpp:118-124 | makes the disconnected callback if it is registered |
| `WampHandler.LcuWampHandler.OnMessage` | src/lcu_wamp_handler.cpp:126-134 | an empty message is ignored, any other dispatched |
| `WampHandler.LcuWampHandler.DispatchMessage` | src/lcu_wamp_handler.cpp:136-171 | makes the one user callback the document means, if it is registered, and none when anything about it throws |
| `WampHandler.LcuWampHandler.Run` | src/lcu_wamp_handler.cpp:44-89 | the user callbacks of a run are, in order, those its connection callbacks mean |
| `WampHandler.LcuWampHandler.Stop` | src/lcu_wamp_handler.cpp:91-94 | sets the stop flag of the handler below, and sends "Exit" if its socket is connected and open |
| `WampHandler.LcuWampHandler.CallFunction` | include/rito/lcu_wamp_handler.h:263-274 | sends the call text exactly if the session's socket is connected and open |
| `WampHandler.LcuWampHandler.CallFunctionWithoutArguments` | src/lcu_wamp_handler.cpp:199-205 | sends the text of the call without arguments exactly if the session's socket is connected and open |
| `WampHandler.LcuWampHandler.SubscribeTo` | src/lcu_wamp_handler.cpp:96-101 | sends the subscription text exactly if the session's socket is connected and open |
| `WampHandler.LcuWampHandler.UnsubscribeFrom` | src/lcu_wamp_handler.cpp:103-108 | sends the unsubscription text exactly if the session's socket is connected and open |
| `WampHandler.UsersHearCleanPeers` | src/lcu_wamp_handler.cpp:44-57 | from frames to user callbacks, failed attempts included: each surviving message of each peer is heard once, in order, within that peer's connection, and nothing else |
| `WampHandler.AnswerIsHeard` | src/lcu_wamp_handler.cpp:126-197 | a message that reads as an array beginning with a code and the texts of an answer makes that one user callback, if it is registered |
| `WampHandler.OtherMessagesAreSilent` | src/lcu_wamp_handler.cpp:126-171 | every other message makes none |
| `WampHandler.OthersAreHeard` | src/lcu_wamp_handler.cpp:110-134 | connections and disconnections make their own callbacks, if registered; empty and unreadable messages and those that are no array make none |
| `WampHandler.AnsweringPeerIsHeard` | src/lcu_wamp_handler.cpp:44-57 | from frames to user callbacks: a peer that sends answers is heard as connected, one callback for each answer with its texts, disconnected |
| `WampHandler.AnswersAreDispatched` | src/lcu_wamp_handler.cpp:18-42 | an answer written as an array of strings, each escaped as its sender likes, makes the callback of its code (3, 4 or 8) with the strings that were meant, if that is registered; any other such array makes none |
| `WampHandler.UnreadableTextsAreSilent` | src/lcu_wamp_handler.cpp:138-170 | a text that is no JSON array of the subset makes no callback |

## Left out

- POCO: TLS, HTTP, the websocket wire format and its JSON library. `receiveFrame` is an outcome per call, the JSON library a function from a message to its elements.
- The REST handlers and the Windows process handler: network and system calls with lookup tables.
- Control frames between the fragments of a message: the loop takes any FIN frame for the end, and so does the model, but the round trips are about data frames.
- `WebsocketClient.HttpsWebsocketClient.SendMessage`: a `sendFrame` that throws is not modelled; it ends the program, since all callers are `noexcept`.
- `WebsocketClient.HttpsWebsocketClient.SetCredentials`: stores the credentials; writing them into the request is part of HTTP.
- `WampHandler.LcuWampHandler.Register`: sets all five registrations at once, where the source has a function for each.
- The one-second delay after a failed attempt, and every other matter of time.
- Data races as the C++ memory model defines them, and destruction during use: see the assumptions.
- `WampHandler.LcuWampHandler.Run`: hands the connection callbacks on after the run instead of inside it; since the connection handler reads nothing of the WAMP handler, the callbacks and their order are the same.
- `WebsocketHandler.LcuWebsocketHandler.Stop`: runs check and use as one; the steps between them are in the concurrent model.
- `WebsocketHandler.LcuWebsocketHandler.SendMessage`: likewise.
- `JsonArrays.Utf8`: turns each `\u` escape into bytes on its own, so a surrogate pair is not combined; it serves as a reference reader for the texts sent, none of which contains such an escape of the library's making.
- Nested arrays, objects, fractions and the literals of RFC 8259 in the JSON reader: no text the library sends contains them.
- `WampHandler.AnswersAreDispatched`: answers with objects or arrays among their elements are not spelled out as texts, because what the user gets is the JSON library's own rendering of them; `AnswerIsHeard` covers them through the abstract reader.
