# An Engine.IO server, modelled and proved

The server speaks revision 4 of the Engine.IO protocol: a session opens on HTTP
long-polling or on a WebSocket, may move once from polling to WebSocket while it
lives, and is kept alive by a heartbeat. This project models the sessions, their two
transports, the codec, the server that holds the sessions, and the parts they rest on,
and proves what the code promises of them.

## How it is built

Behaviour that changes things in place appears twice. A *state machine* on values
(`Session`, `ServerState`, and the `State` datatypes of the transports, the limiter, the
emitter and the metrics) says what each callback does. A *class* of the same name as
in the source (`Socket`, `Server`, `WS`, `Polling`, `RateLimiter`, `ServerMetrics`,
`EventEmitter`) carries it out on fields, and each of its methods is proved to end in
exactly the state the machine's function computes. The theorems are about all runs of
the machines.

| file | content |
|---|---|
| Packets, Transport | vocabulary of the wire, life-cycle states, options |
| Base64, Parser | the codec, with its round trips |
| WebSocketTransport, PollingTransport | the two transports, each with theorems over all runs |
| RateLimiter, Heartbeat, Metrics | budgets, timers on an integer clock, counters |
| EventEmitter, NestedEmits | dispatch, and listeners that emit |
| Session | the session state machine: 22 kinds of step |
| SessionInvariants, SessionSteps | the invariant, and that every step keeps it |
| SessionHeart, SessionRefinement | what leaves the heartbeat alone; shortcuts against the plain path |
| SessionTheorems | what holds of a session in every run |
| SessionInput, SessionBeats | what comes in and is reported; pongs, pings and time |
| SessionClient, SessionLosses, SessionPolls | what the client decodes; what is lost, and when; what polls get, and which get nothing |
| SessionAccounts, SessionRate, SessionBudget | counters; how many messages get through at most, and at least |
| SessionBackpressure | buffered bytes |
| SessionUpgrade, SessionHandlers, SessionReasons | upgrades; the handlers on the transports; why sessions close |
| Socket | the socket object |
| ServerState, ServerInvariants, ServerSteps, ServerTheorems | the server as a machine over its sessions |
| ServerBudgets, ServerWelcome | which handshakes are refused; how the others are answered |
| ServerLives, ServerTimer | each socket a session in a run of its own; the registry of limiters |
| Fleet, Server | the server object and its sockets |

A *run* is any sequence of steps, in any order: application calls, requests, frames,
aborts, timers, bytes drained by the network. Steps that cannot apply change nothing.
Application listeners run as steps of their own. A timer that is due fires before the
clock moves on. `accepted`, `lost`, `settled`, `released`, `window`, `admissions`
and `lastPong` are history: nothing the code does depends on them.

Some choices that shape the model:

- `server.upgrade` opens the WebSocket before it returns (lib/server.ts:701), and the
  close event of a Bun socket is a later step. Frames may still arrive between the two.
- A Bun socket is known by its effects: frames appended, bytes buffered, whether it is
  open. Bytes beyond what the operating system takes at once are buffered.
- A ping timer that is overwritten before the first ping stays armed
  (lib/socket.ts:226-231), and so does a noop timer overwritten by a second probe
  (lib/socket.ts:343). Both are kept and may fire, on a closed session too, where the
  ping is not sent and the wait for its pong ends in nothing.
- A packet handed to a WebSocket transport whose Bun socket is no longer open vanishes
  (lib/transports/websocket.ts:66). The model keeps it in `lost`.
- The shared limiter tick reads the clock that the session's timers run on.
- A transport's handlers are attached or not; `SessionHandlers` follows the emitters through
  every run and shows that their dispatch does to the session what the machine does.
- The clients map is walked in an arbitrary order; every theorem holds for all of them.

## Where the code departs from what is said or expected

- lib/rate-limiter.ts:15 speaks of a tick every 100 ms; `TICK_MS` is 25. No theorem
  depends on the length: the gap between ticks is a parameter.
- `broadcast` is said to send to all connected sockets (lib/server.ts:862). A WebSocket
  that is paused, closing or gone is skipped and still counted: `BroadcastIsWrite` and
  `BroadcastIsWriteToEach` give the exact condition.
- A write that returns was not always sent: after the close packet on a WebSocket the
  session stays OPEN until Bun reports the close (lib/transport.ts:99-103), and what is
  written meanwhile is counted and dropped (lib/transports/websocket.ts:65-108).
  `LossIsDeadSocket` gives the exact condition for every step, `LossExample` a run.
- A text with a record separator breaks its polling payload: `ClientSeesAccepted` and
  `PayloadRoundTrip` give the exact condition.
- A once() listener can run twice when a listener emits: `OnceUnlessOverlap` gives the exact
  condition, `CalledTwiceExample` a run.
- A poll can be left hanging by the abort handler of an earlier request
  (lib/transports/polling.ts:73-83): `EveryPollSettledUnlessStaleAbort` gives the exact
  condition, `StaleAbortExample` a run, `PollHangsByStaleAbort` the same for a session.
- maxClients can be exceeded when editHandshakeHeaders is set: `CapacityWithHook` gives
  the exact condition, `CapacityExceededExample` a run.

## Model

| member | source | states |
|---|---|---|
| Base64.RoundTrip | lib/parser.ts:49 | decoding the base64 text of any byte string gives the bytes back (RFC 4648 section 4) |
| Base64.Alphabet | lib/parser.ts:49 | base64 text never contains the record separator |
| Base64.PaddedToFour | lib/parser.ts:49 | base64 text has a multiple of four characters, of which exactly those that the bytes do not fill are padding |
| Base64.TestVectors | lib/parser.ts:49 | the first test vectors of RFC 4648 section 10 |
| Parser.PacketRoundTrip | lib/parser.ts:47-92 | every encodable packet survives encoding and decoding, over a binary or a text channel, up to "" and absent data being alike |
| Parser.KnownFrames | lib/parser.ts:23-92 | the protocol's own packets have the frames that revision 4 of Engine.IO gives them; an empty or unknown frame is the error packet |
| Parser.EncodePayload | lib/parser.ts:95-108 | the loop and its shortcut for one packet both give the joined texts |
| Parser.DecodePayload | lib/parser.ts:111-122 | the loop yields the decoded pieces up to and including the first error packet |
| Parser.DecodesUpToError | lib/parser.ts:111-122 | every piece is decoded on its own, up to and including the first that is not understood |
| Parser.JoinSplit | lib/parser.ts:107-112 | joining the pieces of a split gives the string back |
| Parser.SplitJoin | lib/parser.ts:107-112 | splitting joined separator-free pieces gives the pieces back |
| Parser.PayloadRoundTrip | lib/parser.ts:95-122 | a payload of encodable packets decodes to them exactly when the list is not empty and no text holds a separator |
| Parser.PayloadReprint | lib/parser.ts:111-122 | a payload that decodes without error prints back to itself exactly when its base64 pieces are canonical; an all-text one always does |
| WebSocketTransport.BufferedBytesBound | lib/transports/websocket.ts:52-63 | with backpressure on and at most B bytes a call, every run keeps the buffered bytes within threshold + 32 B, and within threshold + (sends mod 32) B while writable |
| SessionBackpressure.SessionStaysBounded | lib/transports/websocket.ts:52-136 | the same bound for the WebSocket of a session in every run, from its probing or its handshake on, when no batch flushed, no packet and no reply to a probe is more than B bytes |
| WebSocketTransport.PausedUntilDrained | lib/transports/websocket.ts:123-136 | a paused transport sends nothing as long as the buffer stays above the threshold |
| WebSocketTransport.PausesEvery32nd | lib/transports/websocket.ts:52-136 | in every run a send pauses a writable transport exactly when it is a 32nd one that leaves more than the threshold buffered, and input ends the pause exactly when there is no more than that |
| WebSocketTransport.WS.OnOpen | lib/transports/websocket.ts:115-120 | opens the abstract transport |
| WebSocketTransport.WS.CheckBackpressure | lib/transports/websocket.ts:52-63 | counts the send and pauses at every 32nd one over the threshold |
| WebSocketTransport.WS.SendPackets | lib/transports/websocket.ts:65-77 | frames the whole batch in order, with one backpressure check, or nothing at all |
| WebSocketTransport.WS.SendMessage | lib/transports/websocket.ts:84-94 | the frame built in place is the encoding of a message packet; tells whether it was sent |
| WebSocketTransport.WS.SendRaw | lib/transports/websocket.ts:100-108 | a frame encoded beforehand is the frame of its packet, or is dropped |
| WebSocketTransport.WS.ResumeWrites | lib/transports/websocket.ts:127-136 | input ends a pause exactly when the buffer is at or below the threshold |
| WebSocketTransport.WS.Close | lib/transport.ts:73-84 | closes once, by way of the Bun socket |
| WebSocketTransport.WS.OnCloseEvent | lib/transports/websocket.ts:154-157 | the transport is closed |
| PollingTransport.EveryPollSettledUnlessStaleAbort | lib/transports/polling.ts:46-89 | in every run the transport is writable exactly while a poll is pending, the only live timeout is that poll's, no poll is settled twice, and some poll is left hanging exactly when an abort handler fired for a request other than the pending one |
| PollingTransport.StepForgets | lib/transports/polling.ts:46-89 | a step leaves a poll hanging exactly when it is such an abort and the poll was pending |
| PollingTransport.StaleAbortExample | lib/transports/polling.ts:73-83 | an aborted request that was answered with a message already takes the next poll with it |
| SessionPolls.PollHangsByStaleAbort | lib/transports/polling.ts:73-83 | in every run of a session some poll is left hanging exactly when the abort handler of an earlier request reached a pending poll |
| SessionPolls.StaleAbortEndsSession | lib/transports/polling.ts:73-83 | in every run such an abort leaves the pending poll hanging and closes the session with "transport error" |
| SessionPolls.PollIsServed | lib/transports/polling.ts:46-89 | in every run a poll that finds none pending is answered at once with everything buffered, in one response, which may complete a close; with nothing buffered it is kept |
| SessionPolls.PollFails | lib/transports/polling.ts:61-83 | in every run the timeout of the pending poll rejects it and an abort drops it, and either ends the session with "transport error" |
| PollingTransport.Polling.OnPollRequest | lib/transports/polling.ts:46-89 | the request becomes the pending one, or finds one pending |
| PollingTransport.Polling.RefuseOverlap | lib/transports/polling.ts:50-56 | the overlapping request gets its 400 |
| PollingTransport.Polling.OnPollTimeout | lib/transports/polling.ts:61-69 | the timeout callback, and whether it reports an error |
| PollingTransport.Polling.OnAbort | lib/transports/polling.ts:73-83 | the abort handler drops whichever poll is pending |
| PollingTransport.Polling.SendPackets | lib/transports/polling.ts:162-193 | answers the pending poll with the payload of the packets |
| PollingTransport.Polling.Finish | lib/transports/polling.ts:195-209 | answers a pending poll with close or noop and is closed |
| PollingTransport.Polling.Close | lib/transport.ts:73-84 | closes once |
| RateLimiting.WindowBound | lib/rate-limiter.ts:25-69 | after any past, a span of length t sees at most maxMessages * (t / windowMs + 2) accepted messages |
| RateLimiting.ResetsAreSpaced | lib/rate-limiter.ts:19-33 | resets are at least a window apart, with ticks at most a gap apart each comes less than a gap late, and none is missing: no tick has reached the time the next one is due |
| RateLimiting.ResetRestoresBudget | lib/rate-limiter.ts:25-69 | in every run a tick that comes when a reset is due restores the budget: up to maxMessages of the messages that follow are all accepted, and until the next reset no more than that |
| SessionRate.MessageRateBound | lib/rate-limiter.ts:25-69 | in every run, between any two of its points, a session with a budget reports at most maxMessages * (time / windowMs + 2) messages, with the clock of the session as the clock of the shared tick |
| SessionBudget.ResetLetsThrough | lib/rate-limiter.ts:25-69 | in every run of a session, after a tick when a reset is due by its start and earlier resets, up to maxMessages messages are all reported with their data, whatever else happens |
| SessionBudget.StartLetsThrough | lib/rate-limiter.ts:44-52 | so are the first maxMessages messages of a session |
| RateLimiting.RateLimiter.TryConsume | lib/rate-limiter.ts:63-69 | spends one unit if there is one |
| RateLimiting.RateLimiter.Refill | lib/rate-limiter.ts:28-31 | resets a limiter that is due |
| RateLimiting.SharedTimer.Register | lib/rate-limiter.ts:51-58 | the limiter is registered and the timer runs |
| RateLimiting.SharedTimer.Destroy | lib/rate-limiter.ts:74-77 | the timer stops with the last limiter |
| RateLimiting.SharedTimer.OnTick | lib/rate-limiter.ts:25-32 | one tick resets exactly the registered limiters that are due |
| SessionSteps.StepKeeps | lib/socket.ts:120-529 | every one of the 22 steps keeps the session invariant and moves forward |
| SessionSteps.RunKeeps | lib/socket.ts:120-529 | so does every run |
| SessionTheorems.DeliveryInOrder | lib/socket.ts:337-496 | in every run the session packets on the wire are a prefix of those accepted, the first being "open"; with the lost and the buffered ones they are all of them, and none is lost while the session polls or its Bun socket is open |
| SessionTheorems.BacklogOnlyWhenBlocked | lib/socket.ts:475-519 | a writable transport leaves the buffer empty; a CLOSING session has a backlog and a transport that is not writable |
| SessionClient.ClientSeesAccepted | lib/socket.ts:412-496 | what a client decodes from all responses and frames, across an upgrade, is what was delivered, and a prefix of what was accepted, exactly when no text with a record separator went out by polling |
| SessionLosses.LossIsDeadSocket | lib/transports/websocket.ts:65-108 | a step loses packets exactly when it hands them to a Bun socket that was not open before it: a write, broadcast or ping on a writable transport, a pong or a resumed backlog, the backlog of a takeover |
| SessionLosses.LossExample | lib/transport.ts:99-103 | after the close packet on a WebSocket the session is still OPEN, and the next write counts as sent and is lost |
| SessionLosses.CloseDeliversBacklog | lib/socket.ts:501-519 | a close that waited for its backlog and completes has put everything accepted on the wire exactly when the socket it went out on, bound or taking over, was open before the step |
| SessionHandlers.CandidateDispatch | lib/event-emitter.ts:190-216 | a packet on a probing transport calls the upgrade handler alone, although the upgrade packet leaves the session's own handlers registered |
| SessionHandlers.BoundDispatch | lib/socket.ts:264-270 | a packet on a bound transport calls the session's packet handler, which takes the handlers off when it closes the session |
| SessionHandlers.PacketsFindTheirHandler | lib/socket.ts:264-376 | in every run a packet calls the session's handler on the bound transport, the upgrade handler alone on a candidate, and nobody on a transport that was replaced or let go |
| SessionHandlers.ProbeIsNotHeard | lib/socket.ts:337-375 | in every run a frame on a probing transport does what the listeners called for its packet do; the session's handler is not among them, no data is reported and no packet seen, the upgrade packet included |
| SessionTheorems.LifeCycle | lib/socket.ts:384-397 | states only move forward, histories only grow, "close" is reported exactly once, nothing but an orphaned probe after it, and no input is heard outside OPEN |
| SessionTheorems.OneUpgrade | lib/socket.ts:296-376 | a session changes transport at most once, from polling to WebSocket, and a failed probe leaves it marked as upgrading for good |
| SessionTheorems.GracefulClose | lib/socket.ts:501-519 | from close() on nothing is accepted; a forced close leaves nothing unsent; the session closes at once exactly when nothing is buffered |
| SessionTheorems.HeartbeatDeadline | lib/socket.ts:226-256 | a session that is not CLOSED has an armed timer that ends it by lastPong + pingInterval + pingTimeout, whatever pongs come in |
| SessionTheorems.SilentSessionCloses | lib/socket.ts:226-256 | time cannot pass that deadline without a pong and find the session alive |
| SessionTheorems.ClosingSessionCloses | lib/socket.ts:155-159 | a session that is CLOSING is CLOSED once the clock has passed its deadline, pongs or not |
| SessionBeats.PingTimeoutIsDeserved | lib/socket.ts:251-256 | in every run the ping timeout closes a session only pingTimeout after its latest ping went out, with no pong heard since |
| SessionBeats.PongsRestartHeartbeat | lib/socket.ts:166-178 | in every run each pong of a frame or a POST that reaches an OPEN session is reported, ends the wait for it, and puts the next ping a whole interval away, leaving the armed timer behind only before the first ping; nothing else that comes in moves the heartbeat, and closing stops both timers |
| SessionBeats.PingGoesOut | lib/socket.ts:226-256 | in every run a ping timer that is due, overwritten ones included, has a ping accepted and its pong awaited for pingTimeout; one that is not does nothing |
| SessionBeats.PingsKeepPace | lib/socket.ts:226-244 | in every run the ping timer is due exactly pingInterval after the latest pong that was heard, or after the start |
| SessionBeats.TimePasses | lib/socket.ts:226-256 | time moves on to any point before which none of the session's timers is due, and changes nothing else |
| SessionInput.MessagesAreReported | lib/socket.ts:155-207 | in every run each message of a frame or a POST that reaches the OPEN session is reported by one event, in order: its data, or with a limit that it was refused; observers are shown all packets but messages on a WebSocket |
| SessionInput.MessagesAreJudged | lib/socket.ts:189-200 | in every run the messages of a step are reported with their data as long as the budget lasts, and refused after that |
| SessionInput.FrameIsReported | lib/socket.ts:274-286 | in every run a message frame on an OPEN session is reported with its data and counted with its size, unless nothing of the budget is left: then it is refused and not counted |
| SessionInput.PingIsAnswered | lib/socket.ts:180-187 | in every run a ping from the client is answered with a pong |
| SessionInput.CloseFrameAsks | lib/transport.ts:99-103 | in every run the close packet of a client on a WebSocket has Bun close the socket, and the session goes on until then |
| SessionInput.PostedCloseEnds | lib/transports/polling.ts:195-209 | in every run the close packet of a client that polls ends the session with "transport close", and a pending poll is answered with a noop |
| SessionInput.ClosedSocketIsSilent | lib/transports/websocket.ts:154-157 | in every run the close event of the socket ends the session, and later frames do nothing |
| SessionTheorems.WritesAreAccepted | lib/socket.ts:412-468 | in every run write() on an OPEN session accepts the message, counts it and its bytes, and shows it first when packets are watched; on one that closes it does nothing |
| SessionTheorems.OverlapEndsSession | lib/transports/polling.ts:50-56 | an overlapping poll: the pending one gets the close packet, the second a 400, the session ends with "transport error" |
| SessionTheorems.ShortcutsAreInvisible | lib/socket.ts:180-432 | over all runs the session with its shortcuts equals the session that buffers every packet and decodes every frame, but for the packets observers see |
| SessionRefinement.RawIsBuffered | lib/socket.ts:182-241 | a raw ping or pong is a ping or pong through the buffer |
| SessionRefinement.WriteIsBuffered | lib/socket.ts:412-432 | write() through sendMessage leaves the frame and the counters of sendPacket and flush |
| SessionRefinement.FastMessageIsPlain | lib/socket.ts:274-286 | the message callback does what decoding and dispatch would |
| SessionRefinement.DecodeMessage | lib/transports/websocket.ts:138-150 | text starting with "4" decodes to the message the callback is given |
| SessionRefinement.BroadcastIsWrite | lib/server.ts:876-885 | for one session a broadcast is a write exactly when it polls, or its WebSocket is writable and it still accepts; otherwise it is only counted |
| SessionHeart.StepSustained | lib/socket.ts:166-256 | a step keeps the heartbeat alive, and only an accepted pong moves its origin |
| SessionHeart.StepDeaf | lib/socket.ts:155-159 | a session that is CLOSING or CLOSED hears nothing |
| SessionAccounts.CountersAreHistory | lib/socket.ts:189-464 | in every run the four counters equal the messages and bytes of the packets accepted (and of broadcasts dropped) and of the "data" events |
| SessionAccounts.DataCostsBudget | lib/socket.ts:189-200 | between two limiter ticks every "data" event costs one unit of the budget |
| SessionUpgrade.UpgradeCompletes | lib/socket.ts:296-376 | request, probe and upgrade packet, one right after the other, take any open polling session over: the pending poll is released, the reply and the whole backlog go out as frames, nothing stays outstanding |
| SessionUpgrade.TakeOverDelivers | lib/socket.ts:347-368 | whatever happened since the request, an upgrade packet that finds the session OPEN and the candidate's socket open completes the upgrade: the backlog follows the candidate's frames, or waits while it is paused, and nothing is lost |
| SessionUpgrade.ProbeIsAnswered | lib/socket.ts:337-346 | in every run a probe is answered with a pong that says "probe" unless the candidate is paused, a pending poll gets a noop, the noop timer starts and "upgrading" is reported |
| SessionUpgrade.FirstRequestStarts | lib/socket.ts:296-318 | the first request to upgrade a live session that polls starts a candidate and its timeout; any other changes nothing |
| SessionUpgrade.TimeoutSparesPaused | lib/socket.ts:308-318 | the upgrade timeout closes the candidate only if it is open and not paused |
| SessionUpgrade.CandidateAsksToClose | lib/transport.ts:99-103 | the close packet of a candidate has Bun close its socket |
| SessionReasons.CloseReasonTells | lib/socket.ts:166-397 | in every run a step closes a live session for a reason exactly when that reason is what the step does to it: a due timeout, an overlap, timeout or abort of a pending poll, the socket or a close packet, an unexpected packet while OPEN, a close without a backlog or the drain that ends one |
| SessionUpgrade.LateUpgradeSticks | lib/socket.ts:308-326 | a candidate that is not done by the upgrade timeout is closed; the session goes on unchanged, and stays marked as upgrading |
| SessionUpgrade.TickReleasesPoll | lib/socket.ts:328-346 | a poll that comes in while the session is probed, with nothing to send, is answered with a noop by the next tick |
| SessionUpgrade.FailedProbeSticks | lib/socket.ts:369-374 | any other packet closes the candidate and leaves the session as it was, marked as upgrading |
| Socket.Socket.Connect | lib/socket.ts:90-147 | a constructed and opened socket is the machine's start; ties the object to the state machine |
| Socket.Socket.OnOpen | lib/socket.ts:120-147 | open, handshake packet, first timer |
| Socket.Socket.OnPacket | lib/socket.ts:155-207 | dispatch by packet type |
| Socket.Socket.OnMessage | lib/socket.ts:189-200 | budget, counters, "data" |
| Socket.Socket.SchedulePing | lib/socket.ts:226-244 | a new timer before the first ping, which may leave one behind; the same one after |
| Socket.Socket.ResetPingTimeout | lib/socket.ts:251-256 | the pong deadline |
| Socket.Socket.OnPingInterval | lib/socket.ts:231-243 | the ping timer |
| Socket.Socket.OnStrayPingInterval | lib/socket.ts:231-243 | a ping timer that was overwritten |
| Socket.Socket.OnPingTimeout | lib/socket.ts:253-255 | the pong deadline passes |
| Socket.Socket.OnMessageFast | lib/socket.ts:274-286 | the callback wired into the WebSocket |
| Socket.Socket.MaybeUpgrade | lib/socket.ts:296-306 | the first candidate starts probing; a second, or one that comes after an upgrade, is closed and the session untouched |
| Socket.Socket.OnCandidatePacket | lib/socket.ts:337-375 | probe, upgrade or rejection |
| Socket.Socket.TakeOver | lib/socket.ts:349-368 | the candidate is bound, the old transport closed, the backlog flushed |
| Socket.Socket.OnCandidateFrame | lib/transports/websocket.ts:123-151 | a frame on the candidate |
| Socket.Socket.OnCandidateClose | lib/socket.ts:322-326 | the candidate is forgotten, its timers cleared |
| Socket.Socket.OnUpgradeTimeout | lib/socket.ts:308-318 | the candidate is closed if it still can be |
| Socket.Socket.SendNoop | lib/socket.ts:330-335 | ends a pending poll |
| Socket.Socket.OnFastUpgradeTick | lib/socket.ts:343-346 | the noop tick |
| Socket.Socket.OnClose | lib/socket.ts:384-397 | state, timers, transport, event |
| Socket.Socket.Write | lib/socket.ts:412-432 | shortcut or buffer |
| Socket.Socket.SendPacket | lib/socket.ts:441-468 | count, show, buffer, flush |
| Socket.Socket.Flush | lib/socket.ts:475-496 | the buffer goes to a writable transport, and "drain" may complete a close |
| Socket.Socket.Close | lib/socket.ts:501-519 | at once, or after the backlog |
| Socket.Socket.CloseTransport | lib/socket.ts:526-529 | handlers off, transport closed |
| Socket.Socket.TakeBroadcast | lib/server.ts:876-885 | one socket's part of a broadcast |
| Socket.Socket.OnPollRequest | lib/transports/polling.ts:46-89 | a GET |
| Socket.Socket.OnPollTimeout | lib/transports/polling.ts:61-69 | a poll's timeout |
| Socket.Socket.OnPollAbort | lib/transports/polling.ts:73-83 | a poll's abort |
| Socket.Socket.OnPost | lib/transports/polling.ts:147-153 | the packets of a POST, one by one |
| Socket.Socket.OnFrame | lib/transports/websocket.ts:123-151 | resume first, then the shortcut or the decoder |
| Socket.Socket.OnWebSocketClose | lib/transport.ts:115-118 | the bound WebSocket closes |
| Socket.Socket.OnLimiterTick | lib/rate-limiter.ts:25-32 | the shared tick, until the limiter is destroyed |
| Socket.Socket.Perform | lib/socket.ts:120-529 | any step of the state machine, carried out by the methods above; ties the object to the state machine |
| ServerSteps.ApplyKeeps | lib/server.ts:580-991 | every step of the server keeps its invariant |
| ServerInvariants.SocketStepKeeps | lib/server.ts:741-773 | so does every step of one of its sockets, with the listeners' reactions, and leaves the rest alone |
| ServerInvariants.EventsEffect | lib/server.ts:741-773 | what one step reports adds up to counted upgrades and at most one removal, in any order |
| ServerTheorems.CountersAgree | lib/server.ts:341-773 | in every run pollingCount and websocketCount are the clients on each transport, their sum the clients, connections the sockets ever made, disconnections those that are no clients any more, upgrades the sockets that ever switched, and a socket is a client exactly while not CLOSED |
| ServerTheorems.DegradationFollowsLoad | lib/server.ts:917-928 | the cached flag is the load, the events alternate starting with active, and everyone admitted in degraded mode came by WebSocket |
| ServerTheorems.CapacityHolds | lib/server.ts:637-655 | without editHandshakeHeaders the clients never exceed maxClients |
| ServerTheorems.CapacityWithHook | lib/server.ts:637-741 | with it, a step exceeds maxClients exactly when it connects a handshake that passed the check before the hook and finds the server full after it |
| ServerTheorems.CapacityExceededExample | lib/server.ts:661-667 | two handshakes that wait for the hook together make two clients of one |
| ServerBudgets.BudgetConserved | lib/server.ts:597-635 | in every run the count of each address is that of its handshakes in the window, never more than its share, the tokens are what all handshakes in the window left of maxHandshakesPerSecond, and the window holds nothing else |
| ServerBudgets.BudgetDecides | lib/server.ts:597-655 | in every run a handshake is refused, and counted as an error, exactly when the handshakes of the window, or else those of its non-empty address, have used up their budget; then when the server is full; otherwise it passes and is charged to its address |
| ServerBudgets.OnlyPassedWait | lib/server.ts:637-667 | in every run only a handshake that passes goes on to the hook |
| ServerBudgets.TimerRestoresBudget | lib/server.ts:290-299 | after the one-second timer the only refusal left is that of a full server |
| ServerTheorems.CloseResolvesAtZero | lib/server.ts:974-991 | each close() counts the clients of its start that are not closed yet and has resolved, once, exactly when there are none |
| ServerLives.SocketsAreLives | lib/server.ts:697-773 | every socket a server has made, open or closed, is a session in some run since its handshake |
| ServerLives.SocketsKeepPromises | lib/server.ts:697-773 | so in every run of a server each of its sockets delivers in order, loses nothing while its Bun socket is open, and is within its heartbeat deadline until it is CLOSED |
| ServerTimer.TimerServesOpenSockets | lib/rate-limiter.ts:35-77 | in every run of a server the registered limiters are those of its sockets that are not CLOSED, all of them clients, and the shared timer runs exactly while there is one |
| ServerLives.CloseResolvesInTime | lib/server.ts:974-991 | whatever the clients do, a close() has resolved, once, when the clock of each socket it started from has passed the heartbeat deadline it had then |
| ServerTheorems.CloseAsksAll | lib/server.ts:974-991 | close() starts from all clients and leaves none of them OPEN |
| ServerTheorems.BroadcastIsWriteToEach | lib/server.ts:866-915 | broadcast and broadcastExcept are a write to each (but the excluded one) exactly when every WebSocket among them is writable and accepting |
| ServerWelcome.HandshakeIsAnswered | lib/server.ts:580-785 | in every run a handshake that passes is refused in degraded mode unless it is a WebSocket's, fails when Bun does not upgrade it, and otherwise ends in an OPEN client that has its open packet, as the response to the handshake request or as the first frame, pings after its interval (doubled in degraded mode), and is watched if metrics are; no other socket is touched |
| ServerWelcome.LateHandshakeIsAnswered | lib/server.ts:669-785 | after the hook the second half goes the same way |
| ServerTheorems.MetricsWatchAll | lib/server.ts:218-226 | the first read of the metrics has every client watched, and changes nothing else |
| Server.Server.UpdateDegradationState | lib/server.ts:917-928 | the flag and its event |
| Server.Server.OnUpgrade | lib/server.ts:341-347 | the three counters of an upgrade |
| Server.Server.OnClose | lib/server.ts:760-773 | map, counters, flag, countdowns |
| Server.Server.TickCountdowns | lib/server.ts:981-985 | the countdowns that listen to the socket |
| Server.Server.HandleEvents | lib/server.ts:741-773 | the listeners hear the events in order |
| Server.Server.CheckBudget | lib/server.ts:597-629 | which budget is used up, if any |
| Server.Server.SpendBudget | lib/server.ts:630-635 | one unit of each budget |
| Server.Server.Check | lib/server.ts:597-655 | budgets, then capacity |
| Server.Server.Refill | lib/server.ts:290-299 | the one-second timer |
| Server.Server.MakeSocket | lib/server.ts:697-739 | a socket on the transport of the request |
| Server.Server.Admit | lib/server.ts:741-751 | map, counters, flag |
| Server.Server.ListenTo | lib/server.ts:302-305 | metrics listen to a socket |
| Server.Server.Register | lib/server.ts:669-785 | after the hook: refusals, socket, first poll |
| Server.Server.Handshake | lib/server.ts:580-785 | the whole handshake without a hook |
| Server.Server.Deliver | lib/server.ts:741-773 | a socket's step and what the listeners make of it |
| Server.Server.Broadcast | lib/server.ts:866-886 | the loop over all clients |
| Server.Server.BroadcastExcept | lib/server.ts:893-915 | the loop over all but one |
| Server.Server.Close | lib/server.ts:974-991 | the countdown and the loop over all clients |
| Metrics.AverageBetweenSamples | lib/metrics.ts:63-73 | after any samples, across every fold, the average and the rounded average lie between the smallest and the largest sample, with fewer than 1000 counted |
| Metrics.AverageIsMean | lib/metrics.ts:63-73 | up to 999 samples the average is their mean |
| Metrics.AverageMoves | lib/metrics.ts:63-73 | at any time one more sample moves the average by its share among those the average stands for, and folding does not move it |
| Metrics.RoundsHalfUp | lib/metrics.ts:105 | the reported average is rounded to the nearest integer, halves up |
| Metrics.ServerMetrics.AddRtt | lib/metrics.ts:63-73 | a sample, folded at the limit |
| Metrics.ServerMetrics.AverageRtt | lib/metrics.ts:105 | the rounded average, 0 without samples |
| EventEmitter.EmitCallsSnapshot | lib/event-emitter.ts:190-216 | emit calls exactly the listeners there were at its start, once each and in order, whatever they register or remove, differently at each call if they like |
| EventEmitter.EmitCallsRegistered | lib/event-emitter.ts:85-167 | on() and once() add a listener behind the others, off() takes out the first with the callback, bare or wrapped, or all of an event, or all; the next emit calls the listeners as changed |
| EventEmitter.EmitAnswersTruly | lib/event-emitter.ts:135-216 | in every run an event is in the map exactly while it has a listener, so emit answers truly |
| EventEmitter.OnceIsOnce | lib/event-emitter.ts:104-127 | in every run of emits that do not contain one another, a once() listener is called at most once |
| NestedEmits.OnceUnlessOverlap | lib/event-emitter.ts:104-127 | in every run that comes to its end, emits inside emits included, some once() listener is called twice exactly when an emit starts while one around it still has one of its once() listeners to call |
| NestedEmits.CalledTwiceExample | lib/event-emitter.ts:110-120 | a listener in front of a once() listener emits the event again, and the once() listener is called twice |
| EventEmitter.ListenerArray.SpliceOut | lib/event-emitter.ts:155-160 | the indexed loop takes out the first match |
| EventEmitter.EventEmitter.Push | lib/event-emitter.ts:85-96 | appends to the event's array, or makes one |
| EventEmitter.EventEmitter.AddOneTimeListener | lib/event-emitter.ts:104-127 | each wrapper is new |
| EventEmitter.EventEmitter.RemoveListener | lib/event-emitter.ts:135-167 | an array that becomes empty goes |
| EventEmitter.EventEmitter.CallListener | lib/event-emitter.ts:110-120 | a wrapper takes itself off, then the callback runs |
| EventEmitter.EventEmitter.EmitEvent | lib/event-emitter.ts:190-216 | the paths for one, two and more listeners, over arrays that change under them, all equal the snapshot form |

## Left out

- CORS, request routing, header editing and the checks on an HTTP body: branch-by-branch work on strings. Of a POST only the loop over its packets is modelled.
- A POST that is refused or aborted: its effect on a session is the "transport error" that an overlap or a poll abort also causes.
- The Bun runtime, `Response` objects, per-message deflate, random ids (taken to be new) and the JSON text of the open packet (any text).
- Middlewares and `allowRequest`: a handshake that they refuse is a step that does not happen.
- The draining flag and `shutdown()`: its timer may report "shutdown" twice and closes nothing that is CLOSING already.
- Byte totals of the server's metrics and the round-trip time of a single socket.
- Applications that remove the server's own listeners. The emitter object runs callbacks that do not emit; those that do are on the machine of `NestedEmits` alone.
- Time passing a deadline before its timer has fired: timers here are never late.
- Binary data that is not valid base64 is decoded leniently, but not in every detail of the runtime's decoder; the theorems on decoding other people's base64 speak of canonical text.
- Strings are sequences of characters; lone surrogates and UTF-8 lengths are the runtime's. The byte count of data is a parameter.
- AverageBetweenSamples: over real numbers; the rounding of floating point is not modelled.
- AverageIsMean: likewise over real numbers.
- AverageMoves: likewise over real numbers.
- OnceIsOnce: for emits that do not contain one another; `OnceUnlessOverlap` covers the others.
- UpgradeCompletes: for three steps with nothing in between; `TakeOverDelivers` allows anything in between.
- Connect: a constructor and the step that opens the socket, which the source does in one.
- MaybeUpgrade: for a session that is still among the clients and whose handshake was not a WebSocket's, as the server has checked before (lib/server.ts:455-458, 522-545).
- Options of a WebSocket transport: a socket made in degraded mode shares its doubled ping interval with its WebSocket transport, which does not read it.
