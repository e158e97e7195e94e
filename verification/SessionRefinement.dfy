/**
 * The shortcuts of a session, against the session without them: every packet goes
 * through the buffer, every frame through the decoder. Over all runs the two agree on
 * everything but the packets that observers get to see.
 */
module SessionRefinement {
  import opened Packets
  import opened Transport
  import opened Session
  import opened SessionInvariants
  import opened SessionSteps
  import Parser
  import H = Heartbeat
  import P = PollingTransport
  import W = WebSocketTransport

  // ----- the session without shortcuts -----

  function PlainOnPacket(opts: Options, s: State, p: Packet): State {
    if s.readyState != OPEN then s
    else
      var s1 := Note(s, PacketSeen(p));
      match p.kind
      case Pong => Emit(s1.(heart := H.PongAccepted(opts, s1.heart)), HeartbeatSeen)
      case Ping => SendPacket(opts, s1, Packet(Pong, None))
      case Message => OnMessage(opts, s1, p.data)
      case _ => OnClose(s1, ParseError)
  }

  function PlainTransportPacket(opts: Options, s: State, p: Packet): State {
    if s.attached then PlainOnPacket(opts, s, p) else s
  }

  function PlainPosted(opts: Options, s: State, p: Packet): State {
    if s.polling.Some? && p.kind != Close && s.ws.None? then PlainTransportPacket(opts, s, p)
    else PostedPacket(opts, s, p)
  }

  function PlainPost(opts: Options, s: State, ps: seq<Packet>): State
    decreases |ps|
  {
    if ps == [] then s else PlainPost(opts, PlainPosted(opts, s, ps[0]), ps[1..])
  }

  function PlainDispatch(opts: Options, s: State, p: Packet): State {
    if p.kind != Close then PlainTransportPacket(opts, s, p) else DecodedFrame(opts, s, p)
  }

  function PlainFrame(opts: Options, s: State, frame: RawData): State {
    if s.ws.None? || s.ws.value.link == W.Disconnected then s
    else PlainDispatch(opts, Resumed(opts, s), Parser.DecodePacket(frame))
  }

  function PlainPing(opts: Options, s: State): State {
    var s1 := SendPacket(opts, s, Packet(Ping, None));
    s1.(heart := H.ResetPingTimeout(opts, s1.heart))
  }

  function PlainInterval(opts: Options, s: State): State {
    if H.IntervalDue(s.heart) then PlainPing(opts, s.(heart := H.FireInterval(s.heart))) else s
  }

  function PlainStray(opts: Options, s: State): State {
    if H.StrayDue(s.heart) then PlainPing(opts, s.(heart := H.FireStray(s.heart))) else s
  }

  function PlainApply(opts: Options, s: State, step: Step): State {
    match step
    case DoWrite(data) => SendPacket(opts, s, Packet(Message, Some(data)))
    case PostIn(ps) => PlainPost(opts, s, ps)
    case FrameIn(frame) => PlainFrame(opts, s, frame)
    case PingTimer => PlainInterval(opts, s)
    case StrayPingTimer => PlainStray(opts, s)
    case _ => Apply(opts, s, step)
  }

  function PlainRun(opts: Options, s: State, steps: seq<Step>): State
    decreases |steps|
  {
    if steps == [] then s else PlainRun(opts, PlainApply(opts, s, steps[0]), steps[1..])
  }

  // ----- the packets observers see decide nothing -----

  /** Equal but for the packet trace. */
  predicate Same(s: State, t: State) {
    t == s.(log := s.log.(trace := t.log.trace))
  }

  lemma OnCloseSame(s: State, t: State, reason: CloseReason)
    requires Same(s, t)
    ensures Same(OnClose(s, reason), OnClose(t, reason))
    ensures Same(FinishClose(s), FinishClose(t))
  {}

  lemma SendBufferSame(opts: Options, s: State, t: State)
    requires Same(s, t)
    ensures Same(SendBuffer(opts, s), SendBuffer(opts, t))
  {}

  lemma FlushIsSendBuffer(opts: Options, s: State)
    requires s.readyState != CLOSED && Writable(s) && s.out.buffer != []
    ensures Flush(opts, s) == OnDrained(SendBuffer(opts, s))
  {}

  lemma FlushSame(opts: Options, s: State, t: State)
    requires Same(s, t)
    ensures Same(Flush(opts, s), Flush(opts, t))
  {
    if s.readyState != CLOSED && Writable(s) && s.out.buffer != [] {
      FlushIsSendBuffer(opts, s);
      FlushIsSendBuffer(opts, t);
      SendBufferSame(opts, s, t);
      var s1, t1 := SendBuffer(opts, s), SendBuffer(opts, t);
      OnCloseSame(s1.(out := s1.out.(closeOnDrain := false)), t1.(out := t1.out.(closeOnDrain := false)), ForcedClose);
    }
  }

  lemma SendPacketSame(opts: Options, s: State, t: State, p: Packet)
    requires Same(s, t)
    ensures Same(SendPacket(opts, s, p), SendPacket(opts, t, p))
  {
    SendPacketIsFlush(opts, s, p);
    SendPacketIsFlush(opts, t, p);
    FlushSame(opts, Pushed(opts, s, p), Pushed(opts, t, p));
  }

  lemma PlainOnPacketSame(opts: Options, s: State, t: State, p: Packet)
    requires Same(s, t)
    ensures Same(PlainOnPacket(opts, s, p), PlainOnPacket(opts, t, p))
  {
    var s1, t1 := Note(s, PacketSeen(p)), Note(t, PacketSeen(p));
    if p.kind == Ping {
      SendPacketSame(opts, s1, t1, Packet(Pong, None));
    } else if p.kind != Pong && p.kind != Message {
      OnCloseSame(s1, t1, ParseError);
    }
  }

  lemma FailedSame(s: State, t: State)
    requires Same(s, t)
    ensures Same(TransportFailed(s), TransportFailed(t)) && Same(TransportClosed(s), TransportClosed(t))
  {
    OnCloseSame(s, t, TransportError);
    OnCloseSame(s, t, TransportClose);
  }

  lemma PlainPostedSame(opts: Options, s: State, t: State, p: Packet)
    requires Same(s, t)
    ensures Same(PlainPosted(opts, s, p), PlainPosted(opts, t, p))
  {
    if s.polling.Some? && p.kind == Close {
      FailedSame(s.(polling := Some(P.DoClose(s.polling.value))), t.(polling := Some(P.DoClose(t.polling.value))));
    } else {
      PlainOnPacketSame(opts, s, t, p);
    }
  }

  lemma {:induction false} PlainPostSame(opts: Options, s: State, t: State, ps: seq<Packet>)
    requires Same(s, t)
    ensures Same(PlainPost(opts, s, ps), PlainPost(opts, t, ps))
    decreases |ps|
  {
    if ps != [] {
      PlainPostedSame(opts, s, t, ps[0]);
      PlainPostSame(opts, PlainPosted(opts, s, ps[0]), PlainPosted(opts, t, ps[0]), ps[1..]);
    }
  }

  lemma ResumedSame(opts: Options, s: State, t: State)
    requires Same(s, t) && s.ws.Some?
    ensures Same(Resumed(opts, s), Resumed(opts, t))
  {
    FlushSame(opts, s.(ws := Some(W.Resume(opts, s.ws.value))), t.(ws := Some(W.Resume(opts, t.ws.value))));
  }

  lemma PlainFrameSame(opts: Options, s: State, t: State, frame: RawData)
    requires Same(s, t)
    ensures Same(PlainFrame(opts, s, frame), PlainFrame(opts, t, frame))
  {
    if s.ws.Some? {
      ResumedSame(opts, s, t);
      PlainOnPacketSame(opts, Resumed(opts, s), Resumed(opts, t), Parser.DecodePacket(frame));
    }
  }

  lemma PlainPingSame(opts: Options, s: State, t: State, h: H.State)
    requires Same(s, t)
    ensures Same(PlainPing(opts, s.(heart := h)), PlainPing(opts, t.(heart := h)))
  {
    SendPacketSame(opts, s.(heart := h), t.(heart := h), Packet(Ping, None));
  }

  lemma PlainIntervalSame(opts: Options, s: State, t: State)
    requires Same(s, t)
    ensures Same(PlainApply(opts, s, PingTimer), PlainApply(opts, t, PingTimer))
  {
    PlainPingSame(opts, s, t, H.FireInterval(s.heart));
  }

  lemma PlainStraySame(opts: Options, s: State, t: State)
    requires Same(s, t)
    ensures Same(PlainApply(opts, s, StrayPingTimer), PlainApply(opts, t, StrayPingTimer))
  {
    PlainPingSame(opts, s, t, H.FireStray(s.heart));
  }

  lemma BroadcastSame(opts: Options, s: State, t: State, data: RawData)
    requires Same(s, t)
    ensures Same(Broadcast(opts, s, data), Broadcast(opts, t, data))
  {
    if s.ws.None? {
      SendPacketSame(opts, s, t, Packet(Message, Some(data)));
    }
  }

  lemma PollArrivesSame(opts: Options, s: State, t: State)
    requires Same(s, t)
    ensures Same(PollArrives(opts, s), PollArrives(opts, t))
  {
    FailedSame(s, t);
    if s.polling.Some? {
      FlushSame(opts, s.(polling := Some(P.Accept(s.polling.value))), t.(polling := Some(P.Accept(t.polling.value))));
    }
  }

  lemma PollTimesOutSame(s: State, t: State, poll: nat)
    requires Same(s, t)
    ensures Same(PollTimesOut(s, poll), PollTimesOut(t, poll))
  {
    if s.polling.Some? {
      var p := Some(P.Expire(s.polling.value, poll));
      FailedSame(s.(polling := p), t.(polling := p));
    }
  }

  lemma PollAbortsSame(s: State, t: State, poll: nat)
    requires Same(s, t)
    ensures Same(PollAborts(s, poll), PollAborts(t, poll))
  {
    if s.polling.Some? {
      var p := Some(P.Abort(s.polling.value, poll));
      FailedSame(s.(polling := p), t.(polling := p));
    }
  }

  lemma CloseSessionSame(s: State, t: State)
    requires Same(s, t)
    ensures Same(CloseSession(s), CloseSession(t))
  {
    OnCloseSame(s.(readyState := CLOSING), t.(readyState := CLOSING), ForcedClose);
  }

  lemma WebSocketClosesSame(s: State, t: State)
    requires Same(s, t)
    ensures Same(WebSocketCloses(s), WebSocketCloses(t))
  {
    if s.ws.Some? {
      var w := Some(W.CloseEvent(s.ws.value));
      FailedSame(s.(ws := w), t.(ws := w));
    }
  }

  lemma TakeOverSame(opts: Options, s: State, t: State, w: W.State)
    requires Same(s, t)
    ensures Same(TakeOver(opts, s, w), TakeOver(opts, t, w))
  {
    FlushSame(opts, Rebound(s, w), Rebound(t, w));
  }

  lemma CandidatePacketSame(opts: Options, s: State, t: State, p: Packet)
    requires Same(s, t) && s.probe.transport.Some?
    ensures Same(CandidatePacket(opts, s, p), CandidatePacket(opts, t, p))
  {
    if p.kind == Upgrade {
      TakeOverSame(opts, s, t, s.probe.transport.value);
    }
  }

  lemma CandidateFrameSame(opts: Options, s: State, t: State, frame: RawData)
    requires Same(s, t)
    ensures Same(CandidateFrame(opts, s, frame), CandidateFrame(opts, t, frame))
  {
    if s.probe.transport.Some? {
      var w := W.Resume(opts, s.probe.transport.value);
      CandidatePacketSame(opts, Probing(s, w), Probing(t, w), Parser.DecodePacket(frame));
    }
  }

  lemma PingTimesOutSame(s: State, t: State)
    requires Same(s, t)
    ensures Same(PingTimesOut(s), PingTimesOut(t))
  {
    OnCloseSame(s.(heart := H.FireTimeout(s.heart)), t.(heart := H.FireTimeout(t.heart)), PingTimeout);
  }

  lemma OuterStepSame(opts: Options, s: State, t: State, step: Step)
    requires Same(s, t) && IsOuterStep(step)
    ensures Same(PlainApply(opts, s, step), PlainApply(opts, t, step))
  {
    match step
    case DoWrite(data) => SendPacketSame(opts, s, t, Packet(Message, Some(data)));
    case DoBroadcast(data) => BroadcastSame(opts, s, t, data);
    case DoClose => CloseSessionSame(s, t);
    case EnablePacketCreate =>
    case PollIn => PollArrivesSame(opts, s, t);
    case PollTimeout(poll) => PollTimesOutSame(s, t, poll);
    case PollAbort(poll) => PollAbortsSame(s, t, poll);
    case PostIn(ps) => PlainPostSame(opts, s, t, ps);
  }

  lemma TimerStepSame(opts: Options, s: State, t: State, step: Step)
    requires Same(s, t) && IsTimerStep(step)
    ensures Same(PlainApply(opts, s, step), PlainApply(opts, t, step))
  {
    match step
    case PingTimeoutTimer => PingTimesOutSame(s, t);
    case LimiterTimer =>
    case Wait(_) =>
    case PingTimer => PlainIntervalSame(opts, s, t);
    case StrayPingTimer => PlainStraySame(opts, s, t);
  }

  lemma PlainApplySame(opts: Options, s: State, t: State, step: Step)
    requires Same(s, t)
    ensures Same(PlainApply(opts, s, step), PlainApply(opts, t, step))
  {
    if IsOuterStep(step) {
      OuterStepSame(opts, s, t, step);
    } else if IsTimerStep(step) {
      TimerStepSame(opts, s, t, step);
    } else {
      match step
      case FrameIn(frame) => PlainFrameSame(opts, s, t, frame);
      case WsClose => WebSocketClosesSame(s, t);
      case ProbeFrameIn(frame) => CandidateFrameSame(opts, s, t, frame);
      case _ =>
    }
  }

  // ----- each shortcut -----

  lemma SendBufferOnWebSocket(opts: Options, s: State, p: Packet)
    requires RawPath(s) && Accepting(s) && s.out.buffer == []
    ensures Same(SendBuffer(opts, s.(out := s.out.(buffer := [p], accepted := s.out.accepted + [p]))),
            SendRaw(opts, s, p))
  {}

  /** With nothing buffered, a packet straight to a writable WebSocket is a packet through the buffer. */
  lemma SendPacketOnWebSocket(opts: Options, s: State, p: Packet)
    requires RawPath(s) && Accepting(s) && s.out.buffer == [] && !s.out.closeOnDrain
    ensures var raw := SendRaw(opts, s, p);
            Same(SendPacket(opts, s, p), if p.kind == Message then CountSent(opts, raw, p.data) else raw)
  {
    var s1 := if p.kind == Message then CountSent(opts, s, p.data) else s;
    var s2 := Pushed(opts, s, p);
    assert s.out.buffer + [p] == [p];
    SendPacketIsFlush(opts, s, p);
    FlushIsSendBuffer(opts, s2);
    SendBufferOnWebSocket(opts, s1, p);
    SendBufferSame(opts, s1.(out := s2.out), s2);
  }

  lemma NothingBuffered(s: State)
    requires Inv(s) && Accepting(s) && Writable(s)
    ensures s.out.buffer == [] && !s.out.closeOnDrain
  {}

  lemma RawIsBuffered(opts: Options, s: State, p: Packet)
    requires Inv(s) && RawPath(s) && p.kind != Message
    ensures Same(SendRaw(opts, s, p), SendPacket(opts, s, p))
  {
    if Accepting(s) {
      NothingBuffered(s);
      SendPacketOnWebSocket(opts, s, p);
    } else {
      SendRawRefused(opts, s, p);
    }
  }

  lemma PingOrPongIsBuffered(opts: Options, s: State, kind: PacketType)
    requires Inv(s) && kind != Message
    ensures Same(SendPingOrPong(opts, s, kind), SendPacket(opts, s, Packet(kind, None)))
  {
    if RawPath(s) {
      RawIsBuffered(opts, s, Packet(kind, None));
    }
  }

  /** A message written straight to the WebSocket leaves the same frame and counters. */
  lemma WriteIsBuffered(opts: Options, s: State, data: RawData)
    requires Inv(s)
    ensures Same(Write(opts, s, data), SendPacket(opts, s, Packet(Message, Some(data))))
  {
    if Accepting(s) && s.ws.Some? && !s.meter.packetCreate && s.out.buffer == [] && W.CanSend(s.ws.value) {
      NothingBuffered(s);
      SendPacketOnWebSocket(opts, s, Packet(Message, Some(data)));
    }
  }

  lemma OnPacketIsPlain(opts: Options, s: State, p: Packet)
    requires Inv(s)
    ensures Same(OnPacket(opts, s, p), PlainOnPacket(opts, s, p))
  {
    if s.readyState == OPEN && p.kind == Ping {
      SideFields(s, Note(s, PacketSeen(p)));
      PingOrPongIsBuffered(opts, Note(s, PacketSeen(p)), Pong);
    }
  }

  lemma DecodeMessage(frame: RawData)
    requires IsMessageText(frame)
    ensures Parser.DecodePacket(frame) == Packet(Message, MessageData(frame))
  {}

  /** A message taken past the decoder is the message decoded. */
  lemma FastMessageIsPlain(opts: Options, s: State, data: Option<RawData>)
    requires Shape(s)
    ensures Same(OnMessageFast(opts, s, data), PlainTransportPacket(opts, s, Packet(Message, data)))
  {}

  lemma DispatchIsPlain(opts: Options, s: State, frame: RawData)
    requires Inv(s)
    ensures Same(Dispatch(opts, s, frame), PlainDispatch(opts, s, Parser.DecodePacket(frame)))
  {
    if IsMessageText(frame) {
      DecodeMessage(frame);
      FastMessageIsPlain(opts, s, MessageData(frame));
    } else {
      OnPacketIsPlain(opts, s, Parser.DecodePacket(frame));
    }
  }

  lemma FrameIsPlain(opts: Options, s: State, frame: RawData)
    requires Inv(s)
    ensures Same(FrameArrives(opts, s, frame), PlainFrame(opts, s, frame))
  {
    if s.ws.Some? {
      ResumedKeeps(opts, s);
      DispatchIsPlain(opts, Resumed(opts, s), frame);
    }
  }

  lemma PostedIsPlain(opts: Options, s: State, p: Packet)
    requires Inv(s)
    ensures Same(PostedPacket(opts, s, p), PlainPosted(opts, s, p))
  {
    OnPacketIsPlain(opts, s, p);
  }

  lemma {:induction false} PostIsPlain(opts: Options, s: State, t: State, ps: seq<Packet>)
    requires Inv(s) && Same(s, t)
    ensures Same(PostArrives(opts, s, ps), PlainPost(opts, t, ps))
    decreases |ps|
  {
    if ps != [] {
      PostedPacketKeeps(opts, s, ps[0]);
      PostedIsPlain(opts, s, ps[0]);
      PlainPostedSame(opts, s, t, ps[0]);
      PostIsPlain(opts, PostedPacket(opts, s, ps[0]), PlainPosted(opts, t, ps[0]), ps[1..]);
    }
  }

  lemma PingIsPlain(opts: Options, s: State, h: H.State)
    requires Inv(s)
    ensures Same(SendPing(opts, s.(heart := h)), PlainPing(opts, s.(heart := h)))
  {
    HeartField(s, s.(heart := h));
    PingOrPongIsBuffered(opts, s.(heart := h), Ping);
  }

  lemma IntervalIsPlain(opts: Options, s: State)
    requires Inv(s)
    ensures Same(Apply(opts, s, PingTimer), PlainApply(opts, s, PingTimer))
  {
    PingIsPlain(opts, s, H.FireInterval(s.heart));
  }

  lemma StrayIsPlain(opts: Options, s: State)
    requires Inv(s)
    ensures Same(Apply(opts, s, StrayPingTimer), PlainApply(opts, s, StrayPingTimer))
  {
    PingIsPlain(opts, s, H.FireStray(s.heart));
  }

  predicate HasShortcut(step: Step) {
    step.DoWrite? || step.PostIn? || step.FrameIn? || step.PingTimer? || step.StrayPingTimer?
  }

  lemma NoShortcut(opts: Options, s: State, step: Step)
    requires !HasShortcut(step)
    ensures Apply(opts, s, step) == PlainApply(opts, s, step)
  {}

  lemma TimerIsPlain(opts: Options, s: State, step: Step)
    requires Inv(s) && (step.PingTimer? || step.StrayPingTimer?)
    ensures Same(Apply(opts, s, step), PlainApply(opts, s, step))
  {
    if step.PingTimer? {
      IntervalIsPlain(opts, s);
    } else {
      StrayIsPlain(opts, s);
    }
  }

  lemma InputIsPlain(opts: Options, s: State, step: Step)
    requires Inv(s) && (step.DoWrite? || step.PostIn? || step.FrameIn?)
    ensures Same(Apply(opts, s, step), PlainApply(opts, s, step))
  {
    match step
    case DoWrite(data) => WriteIsBuffered(opts, s, data);
    case PostIn(ps) => PostIsPlain(opts, s, s, ps);
    case FrameIn(frame) => FrameIsPlain(opts, s, frame);
  }

  lemma StepIsPlain(opts: Options, s: State, step: Step)
    requires Inv(s)
    ensures Same(Apply(opts, s, step), PlainApply(opts, s, step))
  {
    if step.PingTimer? || step.StrayPingTimer? {
      TimerIsPlain(opts, s, step);
    } else if step.DoWrite? || step.PostIn? || step.FrameIn? {
      InputIsPlain(opts, s, step);
    } else {
      NoShortcut(opts, s, step);
    }
  }

  lemma {:induction false} RunIsPlain(opts: Options, s: State, t: State, steps: seq<Step>)
    requires Inv(s) && Same(s, t)
    ensures Same(Run(opts, s, steps), PlainRun(opts, t, steps))
    decreases |steps|
  {
    if steps != [] {
      StepKeeps(opts, s, steps[0]);
      StepIsPlain(opts, s, steps[0]);
      PlainApplySame(opts, s, t, steps[0]);
      RunIsPlain(opts, Apply(opts, s, steps[0]), PlainApply(opts, t, steps[0]), steps[1..]);
    }
  }

  // ----- broadcast -----

  /** A broadcast is a write to each, exactly to sessions that poll or whose WebSocket takes the frame. */
  predicate BroadcastReaches(s: State) {
    s.ws.None? || (Accepting(s) && s.ws.value.writable)
  }

  lemma BroadcastReached(opts: Options, s: State, data: RawData)
    requires Inv(s) && BroadcastReaches(s)
    ensures Same(Broadcast(opts, s, data), Write(opts, s, data))
  {
    if s.ws.Some? && !(!s.meter.packetCreate && W.CanSend(s.ws.value)) {
      NothingBuffered(s);
      SendPacketOnWebSocket(opts, s, Packet(Message, Some(data)));
    }
  }

  /** Otherwise the frame is dropped, and counted as sent all the same. */
  lemma BroadcastDropped(opts: Options, s: State, data: RawData)
    requires Inv(s) && !BroadcastReaches(s)
    ensures Broadcast(opts, s, data) == CountSent(opts, s, Some(data))
  {
    SendRawRefused(opts, s, Packet(Message, Some(data)));
  }

  lemma WriteTakes(opts: Options, s: State, data: RawData)
    requires Inv(s) && Accepting(s)
    ensures Write(opts, s, data).out.accepted == s.out.accepted + [Packet(Message, Some(data))]
  {
    var p := Packet(Message, Some(data));
    WriteIsBuffered(opts, s, data);
    SendPacketIsFlush(opts, s, p);
    PushedKeepsBase(opts, s, p);
    FlushKeeps(opts, Pushed(opts, s, p));
  }

  lemma BroadcastIsWrite(opts: Options, s: State, data: RawData)
    requires Inv(s)
    ensures Same(Broadcast(opts, s, data), Write(opts, s, data)) <==> BroadcastReaches(s)
    ensures !BroadcastReaches(s) ==> Broadcast(opts, s, data) == CountSent(opts, s, Some(data))
  {
    if BroadcastReaches(s) {
      BroadcastReached(opts, s, data);
    } else {
      BroadcastDropped(opts, s, data);
      if Accepting(s) {
        WriteTakes(opts, s, data);
      }
    }
  }
}
