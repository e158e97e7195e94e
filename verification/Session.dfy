/**
 * The session as a state machine: what each callback of a socket does to the socket,
 * the transport it is bound to and a transport that may be probing.
 */
module Session {
  import opened Packets
  import opened Transport
  import Parser
  import H = Heartbeat
  import L = RateLimiting
  import P = PollingTransport
  import W = WebSocketTransport

  datatype UpgradeState = NotUpgraded | Upgrading | Upgraded

  datatype CloseReason = TransportError | TransportClose | ForcedClose | PingTimeout | ParseError

  /** What the session tells the application and the server. */
  datatype Event =
    | Opened
    | Data(data: Option<RawData>)
    | RateLimited
    | HeartbeatSeen
    | UpgradeStarted
    | UpgradeDone
    | Closed(reason: CloseReason)

  /** What the session tells whoever watches packets go by. */
  datatype Trace =
    | PacketSeen(packet: Packet)
    | PacketCreated(packet: Packet)
    | Flushed(packets: seq<Packet>)
    | Drained

  /** A WebSocket that is probing, and the timers that go with it. */
  datatype Probe = Probe(transport: Option<W.State>, timeout: bool, noopTimer: bool, strayNoopTimers: nat)

  /**
   * Packets on their way out. `accepted` and `lost` are history: the packets the
   * session took on, in order, and those it handed to a Bun socket that was no
   * longer open.
   */
  datatype Outbox = Outbox(buffer: seq<Packet>, closeOnDrain: bool, accepted: seq<Packet>, lost: seq<Packet>)

  /** Traffic counters, the message budget, and whether packet creation is watched. */
  datatype Meter = Meter(
    packetCreate: bool,
    limiter: Option<L.State>,
    messagesSent: nat,
    bytesSent: nat,
    messagesReceived: nat,
    bytesReceived: nat)

  datatype Log = Log(events: seq<Event>, trace: seq<Trace>)

  /**
   * The bound transport is `ws` when there is one, else `polling`; once upgraded,
   * `polling` is the transport that was replaced. `attached` says that the session's
   * handlers are on the bound transport.
   */
  datatype State = State(
    readyState: ReadyState,
    upgradeState: UpgradeState,
    polling: Option<P.State>,
    ws: Option<W.State>,
    attached: bool,
    probe: Probe,
    out: Outbox,
    heart: H.State,
    meter: Meter,
    log: Log)

  function Emit(s: State, e: Event): State {
    s.(log := s.log.(events := s.log.events + [e]))
  }

  function Note(s: State, t: Trace): State {
    s.(log := s.log.(trace := s.log.trace + [t]))
  }

  predicate Writable(s: State) {
    if s.ws.Some? then s.ws.value.writable else s.polling.Some? && s.polling.value.writable
  }

  /** A ping or pong can skip the buffer. */
  predicate RawPath(s: State) {
    s.ws.Some? && s.ws.value.writable
  }

  predicate Accepting(s: State) {
    s.readyState == OPENING || s.readyState == OPEN
  }

  // ----- closing -----

  /** Handlers off, then close: the transport's own "close" event finds nobody. */
  function CloseTransport(s: State): State {
    var off := s.(attached := false);
    if s.ws.Some? then off.(ws := Some(W.Shut(s.ws.value)))
    else if s.polling.Some? then off.(polling := Some(P.Shut(s.polling.value)))
    else off
  }

  function OnClose(s: State, reason: CloseReason): State {
    if s.readyState == CLOSED then s
    else Emit(CloseTransport(s.(readyState := CLOSED, heart := H.Cancel(s.heart))), Closed(reason))
  }

  function FinishClose(s: State): State {
    OnClose(CloseTransport(s), ForcedClose)
  }

  // ----- sending -----

  function TransportSend(opts: Options, s: State, ps: seq<Packet>): State {
    if s.ws.Some? then
      s.(ws := Some(W.Send(opts, s.ws.value, ps)),
         out := if s.ws.value.link == W.Connected then s.out else s.out.(lost := s.out.lost + ps))
    else if s.polling.Some? then s.(polling := Some(P.Send(s.polling.value, ps)))
    else s
  }

  /** Draining runs the close that was waiting for it, once. */
  function OnDrained(s: State): State {
    if s.out.closeOnDrain then FinishClose(s.(out := s.out.(closeOnDrain := false))) else s
  }

  /** A non-empty buffer goes to a writable transport. */
  function SendBuffer(opts: Options, s: State): State {
    var s1 := Note(s, Flushed(s.out.buffer)).(out := s.out.(buffer := []));
    Note(TransportSend(opts, s1, s.out.buffer), Drained)
  }

  function Flush(opts: Options, s: State): State {
    if s.readyState == CLOSED || !Writable(s) || s.out.buffer == [] then s
    else OnDrained(SendBuffer(opts, s))
  }

  function SizeOf(opts: Options, data: Option<RawData>): nat {
    if data.Some? then opts.byteSize(data.value) else 0
  }

  function CountSent(opts: Options, s: State, data: Option<RawData>): State {
    s.(meter := s.meter.(
         messagesSent := s.meter.messagesSent + 1,
         bytesSent := s.meter.bytesSent + SizeOf(opts, data)))
  }

  /** The counters and the buffer just before a packet is flushed. */
  function Pushed(opts: Options, s: State, p: Packet): State {
    var s1 := if p.kind == Message then CountSent(opts, s, p.data) else s;
    var s2 := if s.meter.packetCreate then Note(s1, PacketCreated(p)) else s1;
    s2.(out := s.out.(buffer := s.out.buffer + [p], accepted := s.out.accepted + [p]))
  }

  function SendPacket(opts: Options, s: State, p: Packet): State {
    if !Accepting(s) then s else Flush(opts, Pushed(opts, s, p))
  }

  /** A frame straight to the bound WebSocket; a transport that cannot send drops it. */
  function SendRaw(opts: Options, s: State, p: Packet): State
    requires s.ws.Some?
  {
    var taken := Accepting(s) && s.ws.value.writable;
    s.(ws := Some(W.Send(opts, s.ws.value, [p])),
       out := if !taken then s.out
              else if s.ws.value.link == W.Connected then s.out.(accepted := s.out.accepted + [p])
              else s.out.(accepted := s.out.accepted + [p], lost := s.out.lost + [p]))
  }

  function SendPingOrPong(opts: Options, s: State, kind: PacketType): State {
    var p := Packet(kind, None);
    if RawPath(s) then SendRaw(opts, s, p) else SendPacket(opts, s, p)
  }

  function Write(opts: Options, s: State, data: RawData): State {
    var p := Packet(Message, Some(data));
    if !Accepting(s) then s
    else if s.ws.Some? && !s.meter.packetCreate && s.out.buffer == [] && W.CanSend(s.ws.value) then
      CountSent(opts, SendRaw(opts, s, p), p.data)
    else SendPacket(opts, s, p)
  }

  /** One socket's share of a broadcast. */
  function Broadcast(opts: Options, s: State, data: RawData): State {
    var p := Packet(Message, Some(data));
    if s.ws.Some? then CountSent(opts, SendRaw(opts, s, p), p.data) else Write(opts, s, data)
  }

  function CloseSession(s: State): State {
    if s.readyState != OPEN then s
    else
      var s1 := s.(readyState := CLOSING);
      if s.out.buffer != [] then s1.(out := s.out.(closeOnDrain := true)) else FinishClose(s1)
  }

  // ----- receiving -----

  function Spent(m: Meter): Meter {
    m.(limiter := if m.limiter.Some? then Some(L.Consume(m.limiter.value)) else None)
  }

  function Tallied(opts: Options, m: Meter, data: Option<RawData>): Meter {
    m.(messagesReceived := m.messagesReceived + 1, bytesReceived := m.bytesReceived + SizeOf(opts, data))
  }

  /** A message spends one unit of the budget, or is dropped. */
  function OnMessage(opts: Options, s: State, data: Option<RawData>): State {
    if s.meter.limiter.Some? && !L.Allows(s.meter.limiter.value) then Emit(s, RateLimited)
    else
      Emit(s.(meter := Tallied(opts, Spent(s.meter), data)), Data(data))
  }

  function OnPacket(opts: Options, s: State, p: Packet): State {
    if s.readyState != OPEN then s
    else
      var s1 := Note(s, PacketSeen(p));
      match p.kind
      case Pong => Emit(s1.(heart := H.PongAccepted(opts, s1.heart)), HeartbeatSeen)
      case Ping => SendPingOrPong(opts, s1, Pong)
      case Message => OnMessage(opts, s1, p.data)
      case _ => OnClose(s1, ParseError)
  }

  /** Messages on a bound WebSocket skip decoding and dispatch. */
  function OnMessageFast(opts: Options, s: State, data: Option<RawData>): State {
    if s.readyState != OPEN then s else OnMessage(opts, s, data)
  }

  // What the session does when its transport emits an event, while its handlers are attached.

  function TransportDrained(opts: Options, s: State): State {
    if s.attached then Flush(opts, s) else s
  }

  function TransportPacket(opts: Options, s: State, p: Packet): State {
    if s.attached then OnPacket(opts, s, p) else s
  }

  function TransportFailed(s: State): State {
    if s.attached then OnClose(s, TransportError) else s
  }

  function TransportClosed(s: State): State {
    if s.attached then OnClose(s, TransportClose) else s
  }

  // ----- the polling side -----

  /** A GET reaches the polling transport the session is bound to. */
  function PollArrives(opts: Options, s: State): State {
    if s.readyState == CLOSED || s.ws.Some? || s.polling.None? then s
    else if s.polling.value.pending.Some? then
      var s1 := TransportFailed(s);
      if s1.polling.Some? then s1.(polling := Some(P.Refuse(s1.polling.value))) else s1
    else TransportDrained(opts, s.(polling := Some(P.Accept(s.polling.value))))
  }

  function PollTimesOut(s: State, poll: nat): State {
    if s.polling.None? then s
    else
      var s1 := s.(polling := Some(P.Expire(s.polling.value, poll)));
      if P.ExpiryIsError(s.polling.value, poll) && s.ws.None? then TransportFailed(s1) else s1
  }

  function PollAborts(s: State, poll: nat): State {
    if s.polling.None? then s
    else
      var s1 := s.(polling := Some(P.Abort(s.polling.value, poll)));
      if P.AbortIsError(s.polling.value, poll) && s.ws.None? then TransportFailed(s1) else s1
  }

  /** A packet of a POST. A replaced transport has no handlers of the session left. */
  function PostedPacket(opts: Options, s: State, p: Packet): State {
    if s.polling.None? then s
    else if p.kind == Close then
      var s1 := s.(polling := Some(P.DoClose(s.polling.value)));
      if s.ws.None? then TransportClosed(s1) else s1
    else if s.ws.None? then TransportPacket(opts, s, p)
    else s
  }

  function PostArrives(opts: Options, s: State, ps: seq<Packet>): State
    decreases |ps|
  {
    if ps == [] then s else PostArrives(opts, PostedPacket(opts, s, ps[0]), ps[1..])
  }

  // ----- the WebSocket side -----

  predicate IsMessageText(frame: RawData) {
    frame.Text? && frame.text != "" && frame.text[0] == '4'
  }

  function MessageData(frame: RawData): Option<RawData>
    requires IsMessageText(frame)
  {
    if |frame.text| > 1 then Some(Text(frame.text[1..])) else None
  }

  /** Input first resumes a paused transport, which drains the buffer. */
  function Resumed(opts: Options, s: State): State
    requires s.ws.Some?
  {
    var s1 := s.(ws := Some(W.Resume(opts, s.ws.value)));
    if W.Resumes(opts, s.ws.value) then TransportDrained(opts, s1) else s1
  }

  function Dispatch(opts: Options, s: State, frame: RawData): State {
    if IsMessageText(frame) then OnMessageFast(opts, s, MessageData(frame))
    else DecodedFrame(opts, s, Parser.DecodePacket(frame))
  }

  /** A frame on the bound WebSocket. */
  function FrameArrives(opts: Options, s: State, frame: RawData): State {
    if s.ws.None? || s.ws.value.link == W.Disconnected then s
    else Dispatch(opts, Resumed(opts, s), frame)
  }

  /** The path every frame would take without the shortcut for messages. */
  function DecodedFrame(opts: Options, s: State, p: Packet): State {
    if p.kind == Close then
      if s.ws.Some? then s.(ws := Some(W.DoClose(s.ws.value))) else s
    else TransportPacket(opts, s, p)
  }

  function WebSocketCloses(s: State): State {
    if s.ws.None? || s.ws.value.link == W.Disconnected then s
    else TransportClosed(s.(ws := Some(W.CloseEvent(s.ws.value))))
  }

  function WebSocketDrains(s: State, buffered: nat, room: nat): State {
    if s.ws.None? then s else s.(ws := Some(W.Drain(s.ws.value, buffered, room)))
  }

  // ----- the upgrade -----

  /** A WebSocket asks to take over. A session on a WebSocket is not offered it: transport mismatch. */
  function UpgradeRequested(s: State, room: nat): State {
    if s.readyState == CLOSED || s.ws.Some? || s.upgradeState != NotUpgraded then s
    else s.(upgradeState := Upgrading, probe := s.probe.(transport := Some(W.Opened(W.Created, room)), timeout := true))
  }

  /** Ends a pending poll so that the client can move on. */
  function SendNoop(opts: Options, s: State): State {
    if s.ws.None? && s.polling.Some? && s.polling.value.writable then
      s.(polling := Some(P.Send(s.polling.value, [Packet(Noop, None)])))
    else s
  }

  /** The probing transport becomes the bound one, the old one is closed, the backlog follows. */
  function TakeOver(opts: Options, s: State, w: W.State): State {
    var s1 := s.(
      upgradeState := Upgraded, ws := Some(w), attached := true,
      probe := s.probe.(transport := None, timeout := false, noopTimer := false),
      polling := if s.polling.Some? then Some(P.Shut(s.polling.value)) else None);
    Flush(opts, Emit(s1, UpgradeDone))
  }

  function Probing(s: State, w: W.State): State {
    s.(probe := s.probe.(transport := Some(w)))
  }

  /** A second probe overwrites the timer of the first, which goes on ticking. */
  function StartNoopTimer(p: Probe): Probe {
    p.(noopTimer := true, strayNoopTimers := p.strayNoopTimers + (if p.noopTimer then 1 else 0))
  }

  function CandidatePacket(opts: Options, s: State, p: Packet): State
    requires s.probe.transport.Some?
  {
    var w := s.probe.transport.value;
    if p == Packet(Ping, Some(Text("probe"))) then
      var s1 := SendNoop(opts, Probing(s, W.Send(opts, w, [PROBE_PONG])));
      Emit(s1.(probe := StartNoopTimer(s1.probe)), UpgradeStarted)
    else if p.kind == Upgrade && s.readyState != CLOSED then TakeOver(opts, s, w)
    else s.(probe := s.probe.(timeout := false, transport := Some(W.Shut(w))))
  }

  /** A frame on the probing WebSocket never takes the shortcut: only the session sets it up. */
  function CandidateFrame(opts: Options, s: State, frame: RawData): State {
    if s.probe.transport.None? || s.probe.transport.value.link == W.Disconnected then s
    else
      var w := W.Resume(opts, s.probe.transport.value);
      var p := Parser.DecodePacket(frame);
      if p.kind == Close then Probing(s, W.DoClose(w)) else CandidatePacket(opts, Probing(s, w), p)
  }

  function CandidateCloses(s: State): State {
    if s.probe.transport.None? then s
    else s.(probe := s.probe.(transport := None, timeout := false, noopTimer := false))
  }

  function CandidateDrains(s: State, buffered: nat, room: nat): State {
    if s.probe.transport.None? then s else Probing(s, W.Drain(s.probe.transport.value, buffered, room))
  }

  function UpgradeTimesOut(s: State): State {
    if !s.probe.timeout || s.probe.transport.None? then s
    else
      var w := s.probe.transport.value;
      s.(probe := s.probe.(
           timeout := false,
           transport := Some(if w.writable && w.readyState != CLOSED && w.readyState != CLOSING then W.Shut(w) else w)))
  }

  function NoopTick(opts: Options, s: State): State {
    if s.probe.noopTimer || s.probe.strayNoopTimers > 0 then SendNoop(opts, s) else s
  }

  // ----- time -----

  function SendPing(opts: Options, s: State): State {
    var s1 := SendPingOrPong(opts, s, Ping);
    s1.(heart := H.ResetPingTimeout(opts, s1.heart))
  }

  function IntervalFires(opts: Options, s: State): State {
    if H.IntervalDue(s.heart) then SendPing(opts, s.(heart := H.FireInterval(s.heart))) else s
  }

  function StrayFires(opts: Options, s: State): State {
    if H.StrayDue(s.heart) then SendPing(opts, s.(heart := H.FireStray(s.heart))) else s
  }

  function PingTimesOut(s: State): State {
    if H.TimeoutDue(s.heart) then OnClose(s.(heart := H.FireTimeout(s.heart)), PingTimeout) else s
  }

  /** The shared tick reaches the limiters of sessions that are not closed. */
  function LimiterTick(s: State): State {
    if s.readyState == CLOSED || s.meter.limiter.None? then s
    else s.(meter := s.meter.(limiter := Some(L.Tick(s.meter.limiter.value, s.heart.now))))
  }

  // ----- the machine -----

  datatype Step =
    | DoWrite(data: RawData)
    | DoBroadcast(data: RawData)
    | DoClose
    | EnablePacketCreate
    | PollIn
    | PollTimeout(poll: nat)
    | PollAbort(poll: nat)
    | PostIn(packets: seq<Packet>)
    | FrameIn(frame: RawData)
    | WsClose
    | WsDrain(buffered: nat, room: nat)
    | UpgradeIn(room: nat)
    | ProbeFrameIn(frame: RawData)
    | ProbeClose
    | ProbeDrain(buffered: nat, room: nat)
    | UpgradeTimeout
    | NoopTimer
    | PingTimer
    | StrayPingTimer
    | PingTimeoutTimer
    | LimiterTimer
    | Wait(until: int)

  /** Steps that start at the application or on a polling request. */
  predicate IsOuterStep(step: Step) {
    || step.DoWrite? || step.DoBroadcast? || step.DoClose? || step.EnablePacketCreate?
    || step.PollIn? || step.PollTimeout? || step.PollAbort? || step.PostIn?
  }

  function Apply(opts: Options, s: State, step: Step): State {
    match step
    case DoWrite(data) => Write(opts, s, data)
    case DoBroadcast(data) => Broadcast(opts, s, data)
    case DoClose => CloseSession(s)
    case EnablePacketCreate => s.(meter := s.meter.(packetCreate := true))
    case PollIn => PollArrives(opts, s)
    case PollTimeout(poll) => PollTimesOut(s, poll)
    case PollAbort(poll) => PollAborts(s, poll)
    case PostIn(ps) => PostArrives(opts, s, ps)
    case FrameIn(frame) => FrameArrives(opts, s, frame)
    case WsClose => WebSocketCloses(s)
    case WsDrain(b, r) => WebSocketDrains(s, b, r)
    case UpgradeIn(room) => UpgradeRequested(s, room)
    case ProbeFrameIn(frame) => CandidateFrame(opts, s, frame)
    case ProbeClose => CandidateCloses(s)
    case ProbeDrain(b, r) => CandidateDrains(s, b, r)
    case UpgradeTimeout => UpgradeTimesOut(s)
    case NoopTimer => NoopTick(opts, s)
    case PingTimer => IntervalFires(opts, s)
    case StrayPingTimer => StrayFires(opts, s)
    case PingTimeoutTimer => PingTimesOut(s)
    case LimiterTimer => LimiterTick(s)
    case Wait(t) => s.(heart := H.Advance(s.heart, t))
  }

  function Run(opts: Options, s: State, steps: seq<Step>): State
    decreases |steps|
  {
    if steps == [] then s else Run(opts, Apply(opts, s, steps[0]), steps[1..])
  }

  /** A socket object before its constructor opens it. */
  function Fresh(opts: Options, webSocket: bool, room: nat, now: int): State {
    State(
      OPENING, NotUpgraded,
      if webSocket then None else Some(P.Created),
      if webSocket then Some(W.Opened(W.Created, room)) else None,
      true,
      Probe(None, false, false, 0),
      Outbox([], false, [], []),
      H.Start(now),
      Meter(false, if opts.rateLimit.Some? then Some(L.Create(opts.rateLimit.value, now)) else None, 0, 0, 0, 0),
      Log([], []))
  }

  /** Open, send the handshake packet, start the heartbeat. */
  function OnOpen(opts: Options, s: State, handshake: string): State {
    var s1 := Emit(SendPacket(opts, s.(readyState := OPEN), Packet(Open, Some(Text(handshake)))), Opened);
    s1.(heart := H.SchedulePing(opts, s1.heart))
  }

  /** What the constructor leaves. */
  function Start(opts: Options, webSocket: bool, room: nat, handshake: string, now: int): State {
    OnOpen(opts, Fresh(opts, webSocket, room, now), handshake)
  }
}
