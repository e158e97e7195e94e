/** The buffered-bytes bound of the WebSocket transport, for the transports of a session in any run. */
module SessionBackpressure {
  import opened Packets
  import opened Transport
  import opened Session
  import opened SessionInvariants
  import opened SessionSteps
  import opened SessionRefinement
  import opened SessionTheorems
  import Parser
  import H = Heartbeat
  import P = PollingTransport
  import W = WebSocketTransport

  // ----- what send() was called with -----

  /** Each batch that was flushed to a transport fits. */
  predicate BatchesFit(opts: Options, trace: seq<Trace>, most: nat) {
    trace == [] ||
    var last := trace[|trace| - 1];
    BatchesFit(opts, trace[..|trace| - 1], most) && (last.Flushed? ==> W.FrameBytes(opts, last.packets) <= most)
  }

  /** Each packet fits by itself. */
  predicate PacketsFit(opts: Options, ps: seq<Packet>, most: nat) {
    ps == [] || (PacketsFit(opts, ps[..|ps| - 1], most) && W.FrameBytes(opts, [ps[|ps| - 1]]) <= most)
  }

  /**
   * No call of send() was handed more than `most` bytes: a call takes a batch from the
   * buffer, or one packet past it.
   */
  predicate Fits(opts: Options, s: State, most: nat) {
    BatchesFit(opts, s.log.trace, most) && PacketsFit(opts, s.out.accepted, most)
  }

  lemma BatchesAppend(opts: Options, trace: seq<Trace>, t: Trace, most: nat)
    ensures BatchesFit(opts, trace + [t], most) <==>
            BatchesFit(opts, trace, most) && (t.Flushed? ==> W.FrameBytes(opts, t.packets) <= most)
  {
    assert (trace + [t])[..|trace|] == trace;
  }

  lemma PacketsAppend(opts: Options, ps: seq<Packet>, p: Packet, most: nat)
    ensures PacketsFit(opts, ps + [p], most) <==> PacketsFit(opts, ps, most) && W.FrameBytes(opts, [p]) <= most
  {
    assert (ps + [p])[..|ps|] == ps;
  }

  // ----- the bound transport -----

  /** If all calls up to t fit, those up to s did, and the bound WebSocket has stayed within its bound. */
  predicate Tame(opts: Options, s: State, t: State, most: nat) {
    && t.probe.transport == s.probe.transport && (t.ws.Some? <==> s.ws.Some?)
    && (Fits(opts, t, most) ==>
          && Fits(opts, s, most)
          && (s.ws.Some? && W.Bounded(opts, s.ws.value, most) ==> W.Bounded(opts, t.ws.value, most)))
  }

  lemma TameTrans(opts: Options, s: State, t: State, u: State, most: nat)
    requires Tame(opts, s, t, most) && Tame(opts, t, u, most)
    ensures Tame(opts, s, u, most)
  {}

  /** The bound WebSocket was not sent anything. */
  lemma QuietTame(opts: Options, s: State, t: State, op: W.Op, most: nat)
    requires opts.backpressureThreshold > 0 && !op.OpSend?
    requires t.log.trace == s.log.trace && t.out.accepted == s.out.accepted && t.probe.transport == s.probe.transport
    requires t.ws == (if s.ws.Some? then Some(W.Apply(opts, s.ws.value, op)) else None)
    ensures Tame(opts, s, t, most)
  {
    if s.ws.Some? && W.Bounded(opts, s.ws.value, most) {
      W.ApplyKeepsBound(opts, s.ws.value, op, most);
    }
  }

  /** The WebSockets are as they were, and so is what was sent. */
  lemma AwayTame(opts: Options, s: State, t: State, most: nat)
    requires t.ws == s.ws && t.probe.transport == s.probe.transport
    requires t.log.trace == s.log.trace && t.out.accepted == s.out.accepted
    ensures Tame(opts, s, t, most)
  {}

  lemma NoteTame(opts: Options, s: State, t: Trace, most: nat)
    ensures Tame(opts, s, Note(s, t), most)
  {
    BatchesAppend(opts, s.log.trace, t, most);
  }

  lemma CloseTransportTame(opts: Options, s: State, most: nat)
    requires opts.backpressureThreshold > 0
    ensures Tame(opts, s, CloseTransport(s), most)
  {
    QuietTame(opts, s, CloseTransport(s), W.OpClose, most);
  }

  lemma OnCloseTame(opts: Options, s: State, reason: CloseReason, most: nat)
    requires opts.backpressureThreshold > 0
    ensures Tame(opts, s, OnClose(s, reason), most)
  {
    if s.readyState == CLOSED {
      AwayTame(opts, s, s, most);
    } else {
      QuietTame(opts, s, OnClose(s, reason), W.OpClose, most);
    }
  }

  lemma FinishCloseTame(opts: Options, s: State, most: nat)
    requires opts.backpressureThreshold > 0
    ensures Tame(opts, s, FinishClose(s), most)
  {
    CloseTransportTame(opts, s, most);
    OnCloseTame(opts, CloseTransport(s), ForcedClose, most);
    TameTrans(opts, s, CloseTransport(s), FinishClose(s), most);
  }

  lemma SendBufferTame(opts: Options, s: State, most: nat)
    requires opts.backpressureThreshold > 0
    ensures Tame(opts, s, SendBuffer(opts, s), most)
  {
    var noted := s.log.trace + [Flushed(s.out.buffer)];
    BatchesAppend(opts, s.log.trace, Flushed(s.out.buffer), most);
    BatchesAppend(opts, noted, Drained, most);
    if s.ws.Some? && W.Bounded(opts, s.ws.value, most) && W.FrameBytes(opts, s.out.buffer) <= most {
      W.SendKeepsBound(opts, s.ws.value, s.out.buffer, most);
    }
  }

  lemma FlushTame(opts: Options, s: State, most: nat)
    requires opts.backpressureThreshold > 0
    ensures Tame(opts, s, Flush(opts, s), most)
  {
    if s.readyState != CLOSED && Writable(s) && s.out.buffer != [] {
      var s1 := SendBuffer(opts, s);
      var s2 := s1.(out := s1.out.(closeOnDrain := false));
      FlushIsSendBuffer(opts, s);
      SendBufferTame(opts, s, most);
      AwayTame(opts, s1, s2, most);
      FinishCloseTame(opts, s2, most);
      TameTrans(opts, s1, s2, FinishClose(s2), most);
      TameTrans(opts, s, s1, OnDrained(s1), most);
    } else {
      AwayTame(opts, s, s, most);
    }
  }

  lemma PushedTame(opts: Options, s: State, p: Packet, most: nat)
    ensures Tame(opts, s, Pushed(opts, s, p), most)
  {
    PacketsAppend(opts, s.out.accepted, p, most);
    BatchesAppend(opts, s.log.trace, PacketCreated(p), most);
  }

  lemma SendPacketTame(opts: Options, s: State, p: Packet, most: nat)
    requires opts.backpressureThreshold > 0
    ensures Tame(opts, s, SendPacket(opts, s, p), most)
  {
    SendPacketIsFlush(opts, s, p);
    if Accepting(s) {
      PushedTame(opts, s, p, most);
      FlushTame(opts, Pushed(opts, s, p), most);
      TameTrans(opts, s, Pushed(opts, s, p), SendPacket(opts, s, p), most);
    } else {
      AwayTame(opts, s, s, most);
    }
  }

  /** A session that takes nothing on has no transport that sends. */
  predicate SendsAccepted(s: State) {
    s.ws.Some? ==> Accepting(s) || !W.CanSend(s.ws.value)
  }

  lemma SendRawTame(opts: Options, s: State, p: Packet, most: nat)
    requires opts.backpressureThreshold > 0 && s.ws.Some? && SendsAccepted(s)
    ensures Tame(opts, s, SendRaw(opts, s, p), most)
  {
    PacketsAppend(opts, s.out.accepted, p, most);
    if W.CanSend(s.ws.value) && W.Bounded(opts, s.ws.value, most) && W.FrameBytes(opts, [p]) <= most {
      W.SendKeepsBound(opts, s.ws.value, [p], most);
    }
  }

  lemma PingOrPongTame(opts: Options, s: State, kind: PacketType, most: nat)
    requires opts.backpressureThreshold > 0 && SendsAccepted(s)
    ensures Tame(opts, s, SendPingOrPong(opts, s, kind), most)
  {
    if RawPath(s) {
      SendRawTame(opts, s, Packet(kind, None), most);
    } else {
      SendPacketTame(opts, s, Packet(kind, None), most);
    }
  }

  lemma CountSentTame(opts: Options, s: State, t: State, data: Option<RawData>, most: nat)
    requires Tame(opts, s, t, most)
    ensures Tame(opts, s, CountSent(opts, t, data), most)
  {}

  lemma WriteTame(opts: Options, s: State, data: RawData, most: nat)
    requires opts.backpressureThreshold > 0
    ensures Tame(opts, s, Write(opts, s, data), most)
  {
    var p := Packet(Message, Some(data));
    SendPacketTame(opts, s, p, most);
    if Accepting(s) && s.ws.Some? {
      SendRawTame(opts, s, p, most);
      CountSentTame(opts, s, SendRaw(opts, s, p), p.data, most);
    }
  }

  lemma BroadcastTame(opts: Options, s: State, data: RawData, most: nat)
    requires opts.backpressureThreshold > 0 && SendsAccepted(s)
    ensures Tame(opts, s, Broadcast(opts, s, data), most)
  {
    var p := Packet(Message, Some(data));
    if s.ws.Some? {
      SendRawTame(opts, s, p, most);
      CountSentTame(opts, s, SendRaw(opts, s, p), p.data, most);
    } else {
      WriteTame(opts, s, data, most);
    }
  }

  lemma OnPacketTame(opts: Options, s: State, p: Packet, most: nat)
    requires opts.backpressureThreshold > 0
    ensures Tame(opts, s, OnPacket(opts, s, p), most)
  {
    if s.readyState != OPEN {
      AwayTame(opts, s, s, most);
    } else {
      var s1 := Note(s, PacketSeen(p));
      NoteTame(opts, s, PacketSeen(p), most);
      match p.kind {
        case Pong => AwayTame(opts, s1, OnPacket(opts, s, p), most);
        case Ping => PingOrPongTame(opts, s1, Pong, most);
        case Message => AwayTame(opts, s1, OnPacket(opts, s, p), most);
        case _ => OnCloseTame(opts, s1, ParseError, most);
      }
      TameTrans(opts, s, s1, OnPacket(opts, s, p), most);
    }
  }

  lemma FailedTame(opts: Options, s: State, most: nat)
    requires opts.backpressureThreshold > 0
    ensures Tame(opts, s, TransportFailed(s), most) && Tame(opts, s, TransportClosed(s), most)
  {
    AwayTame(opts, s, s, most);
    OnCloseTame(opts, s, TransportError, most);
    OnCloseTame(opts, s, TransportClose, most);
  }

  lemma PollingTame(opts: Options, s: State, p: P.State, most: nat)
    ensures Tame(opts, s, s.(polling := Some(p)), most)
  {}

  lemma PostedTame(opts: Options, s: State, p: Packet, most: nat)
    requires opts.backpressureThreshold > 0
    ensures Tame(opts, s, PostedPacket(opts, s, p), most)
  {
    AwayTame(opts, s, s, most);
    OnPacketTame(opts, s, p, most);
    if s.polling.Some? {
      var s1 := s.(polling := Some(P.DoClose(s.polling.value)));
      PollingTame(opts, s, P.DoClose(s.polling.value), most);
      FailedTame(opts, s1, most);
      TameTrans(opts, s, s1, TransportClosed(s1), most);
    }
  }

  lemma {:induction false} PostTame(opts: Options, s: State, ps: seq<Packet>, most: nat)
    requires opts.backpressureThreshold > 0
    ensures Tame(opts, s, PostArrives(opts, s, ps), most)
    decreases |ps|
  {
    if ps == [] {
      AwayTame(opts, s, s, most);
    } else {
      var s1 := PostedPacket(opts, s, ps[0]);
      PostedTame(opts, s, ps[0], most);
      PostTame(opts, s1, ps[1..], most);
      TameTrans(opts, s, s1, PostArrives(opts, s1, ps[1..]), most);
    }
  }

  lemma ResumedTame(opts: Options, s: State, most: nat)
    requires opts.backpressureThreshold > 0 && s.ws.Some?
    ensures Tame(opts, s, Resumed(opts, s), most)
  {
    var s1 := s.(ws := Some(W.Resume(opts, s.ws.value)));
    QuietTame(opts, s, s1, W.OpInput, most);
    FlushTame(opts, s1, most);
    TameTrans(opts, s, s1, Flush(opts, s1), most);
  }

  lemma DispatchTame(opts: Options, s: State, frame: RawData, most: nat)
    requires opts.backpressureThreshold > 0
    ensures Tame(opts, s, Dispatch(opts, s, frame), most)
  {
    AwayTame(opts, s, s, most);
    if IsMessageText(frame) {
      AwayTame(opts, s, Dispatch(opts, s, frame), most);
    } else {
      OnPacketTame(opts, s, Parser.DecodePacket(frame), most);
      if s.ws.Some? {
        QuietTame(opts, s, s.(ws := Some(W.DoClose(s.ws.value))), W.OpDoClose, most);
      }
    }
  }

  lemma FrameTame(opts: Options, s: State, frame: RawData, most: nat)
    requires opts.backpressureThreshold > 0
    ensures Tame(opts, s, FrameArrives(opts, s, frame), most)
  {
    if s.ws.Some? && s.ws.value.link != W.Disconnected {
      var s1 := Resumed(opts, s);
      ResumedTame(opts, s, most);
      DispatchTame(opts, s1, frame, most);
      TameTrans(opts, s, s1, Dispatch(opts, s1, frame), most);
    } else {
      AwayTame(opts, s, s, most);
    }
  }

  lemma PingTame(opts: Options, s: State, h: H.State, most: nat)
    requires opts.backpressureThreshold > 0 && SendsAccepted(s)
    ensures Tame(opts, s, SendPing(opts, s.(heart := h)), most)
  {
    PingOrPongTame(opts, s.(heart := h), Ping, most);
  }

  lemma IntervalTame(opts: Options, s: State, most: nat)
    requires opts.backpressureThreshold > 0 && SendsAccepted(s)
    ensures Tame(opts, s, Apply(opts, s, PingTimer), most)
  {
    PingTame(opts, s, H.FireInterval(s.heart), most);
  }

  lemma StrayTame(opts: Options, s: State, most: nat)
    requires opts.backpressureThreshold > 0 && SendsAccepted(s)
    ensures Tame(opts, s, Apply(opts, s, StrayPingTimer), most)
  {
    PingTame(opts, s, H.FireStray(s.heart), most);
  }

  lemma PollTame(opts: Options, s: State, most: nat)
    requires opts.backpressureThreshold > 0
    ensures Tame(opts, s, PollArrives(opts, s), most)
  {
    AwayTame(opts, s, s, most);
    if s.polling.Some? {
      var s1 := s.(polling := Some(P.Accept(s.polling.value)));
      PollingTame(opts, s, P.Accept(s.polling.value), most);
      FlushTame(opts, s1, most);
      TameTrans(opts, s, s1, Flush(opts, s1), most);
      FailedTame(opts, s, most);
    }
  }

  lemma GivenUpTame(opts: Options, s: State, p: P.State, most: nat)
    requires opts.backpressureThreshold > 0
    ensures Tame(opts, s, TransportFailed(s.(polling := Some(p))), most)
  {
    var s1 := s.(polling := Some(p));
    PollingTame(opts, s, p, most);
    FailedTame(opts, s1, most);
    TameTrans(opts, s, s1, TransportFailed(s1), most);
  }

  lemma PollEndsTame(opts: Options, s: State, poll: nat, most: nat)
    requires opts.backpressureThreshold > 0
    ensures Tame(opts, s, PollTimesOut(s, poll), most) && Tame(opts, s, PollAborts(s, poll), most)
  {
    if s.polling.Some? {
      PollingTame(opts, s, P.Expire(s.polling.value, poll), most);
      GivenUpTame(opts, s, P.Expire(s.polling.value, poll), most);
      PollingTame(opts, s, P.Abort(s.polling.value, poll), most);
      GivenUpTame(opts, s, P.Abort(s.polling.value, poll), most);
    } else {
      AwayTame(opts, s, s, most);
    }
  }

  lemma CloseTame(opts: Options, s: State, most: nat)
    requires opts.backpressureThreshold > 0
    ensures Tame(opts, s, CloseSession(s), most)
  {
    FinishCloseTame(opts, s.(readyState := CLOSING), most);
  }

  lemma WebSocketClosesTame(opts: Options, s: State, most: nat)
    requires opts.backpressureThreshold > 0
    ensures Tame(opts, s, WebSocketCloses(s), most)
  {
    AwayTame(opts, s, s, most);
    if s.ws.Some? {
      var s1 := s.(ws := Some(W.CloseEvent(s.ws.value)));
      QuietTame(opts, s, s1, W.OpCloseEvent, most);
      FailedTame(opts, s1, most);
      TameTrans(opts, s, s1, TransportClosed(s1), most);
    }
  }

  lemma PingTimesOutTame(opts: Options, s: State, most: nat)
    requires opts.backpressureThreshold > 0
    ensures Tame(opts, s, PingTimesOut(s), most)
  {
    AwayTame(opts, s, s, most);
    OnCloseTame(opts, s.(heart := H.FireTimeout(s.heart)), PingTimeout, most);
  }

  lemma DrainTame(opts: Options, s: State, buffered: nat, room: nat, most: nat)
    requires opts.backpressureThreshold > 0
    ensures Tame(opts, s, WebSocketDrains(s, buffered, room), most)
  {
    QuietTame(opts, s, WebSocketDrains(s, buffered, room), W.OpDrain(buffered, room), most);
  }

  // ----- the candidate -----

  /** The WebSocket that frames go out on: the bound one, or else the candidate. */
  function Outlet(s: State): Option<W.State> {
    if s.ws.Some? then s.ws else s.probe.transport
  }

  predicate OutletBounded(opts: Options, s: State, most: nat) {
    Outlet(s).Some? ==> W.Bounded(opts, Outlet(s).value, most)
  }

  /** If all calls up to t fit, those up to s did, and the outlet has stayed within its bound, or is new. */
  predicate OutletTame(opts: Options, s: State, t: State, most: nat) {
    Fits(opts, t, most) ==> Fits(opts, s, most) && (OutletBounded(opts, s, most) ==> OutletBounded(opts, t, most))
  }

  lemma TameOutlet(opts: Options, s: State, t: State, most: nat)
    requires Tame(opts, s, t, most)
    ensures OutletTame(opts, s, t, most)
  {}

  lemma TakeOverTame(opts: Options, s: State, w: W.State, most: nat)
    requires opts.backpressureThreshold > 0 && s.ws.None? && s.probe.transport == Some(w)
    ensures OutletTame(opts, s, TakeOver(opts, s, w), most)
  {
    FlushTame(opts, Rebound(s, w), most);
  }

  lemma ProbeTame(opts: Options, s: State, most: nat)
    requires opts.backpressureThreshold > 0 && s.ws.None? && s.probe.transport.Some?
    requires W.FrameBytes(opts, [PROBE_PONG]) <= most
    ensures OutletTame(opts, s, CandidatePacket(opts, s, Packet(Ping, Some(Text("probe")))), most)
  {
    var w := s.probe.transport.value;
    ProbeOutlet(opts, s);
    if W.Bounded(opts, w, most) {
      W.SendKeepsBound(opts, w, [PROBE_PONG], most);
    }
  }

  lemma ProbeOutlet(opts: Options, s: State)
    requires s.ws.None? && s.probe.transport.Some?
    ensures var t := CandidatePacket(opts, s, Packet(Ping, Some(Text("probe"))));
            && Outlet(t) == Some(W.Send(opts, s.probe.transport.value, [PROBE_PONG]))
            && t.log.trace == s.log.trace && t.out.accepted == s.out.accepted
  {}

  /** The candidate alone has changed, by something other than a send. */
  lemma CandidateTame(opts: Options, s: State, t: State, op: W.Op, most: nat)
    requires opts.backpressureThreshold > 0 && s.ws.None? && s.probe.transport.Some? && !op.OpSend?
    requires t == s.(probe := t.probe)
    requires t.probe.transport == Some(W.Apply(opts, s.probe.transport.value, op)) || t.probe.transport == None
    ensures OutletTame(opts, s, t, most)
  {
    if W.Bounded(opts, s.probe.transport.value, most) {
      W.ApplyKeepsBound(opts, s.probe.transport.value, op, most);
    }
  }

  lemma CandidatePacketTame(opts: Options, s: State, p: Packet, most: nat)
    requires opts.backpressureThreshold > 0 && s.ws.None? && s.probe.transport.Some?
    requires W.FrameBytes(opts, [PROBE_PONG]) <= most
    ensures OutletTame(opts, s, CandidatePacket(opts, s, p), most)
  {
    if p == Packet(Ping, Some(Text("probe"))) {
      ProbeTame(opts, s, most);
    } else if p.kind == Upgrade && s.readyState != CLOSED {
      TakeOverTame(opts, s, s.probe.transport.value, most);
    } else {
      CandidateTame(opts, s, CandidatePacket(opts, s, p), W.OpClose, most);
    }
  }

  lemma OutletTrans(opts: Options, s: State, t: State, u: State, most: nat)
    requires OutletTame(opts, s, t, most) && OutletTame(opts, t, u, most)
    ensures OutletTame(opts, s, u, most)
  {}

  lemma CandidateFrameTame(opts: Options, s: State, frame: RawData, most: nat)
    requires opts.backpressureThreshold > 0 && (s.probe.transport.Some? ==> s.ws.None?)
    requires W.FrameBytes(opts, [PROBE_PONG]) <= most
    ensures OutletTame(opts, s, CandidateFrame(opts, s, frame), most)
  {
    if s.probe.transport.Some? && s.probe.transport.value.link != W.Disconnected {
      var s1 := Probing(s, W.Resume(opts, s.probe.transport.value));
      CandidateTame(opts, s, s1, W.OpInput, most);
      CandidateTame(opts, s1, Probing(s, W.DoClose(s1.probe.transport.value)), W.OpDoClose, most);
      CandidatePacketTame(opts, s1, Parser.DecodePacket(frame), most);
      OutletTrans(opts, s, s1, CandidateFrame(opts, s, frame), most);
    }
  }

  lemma CandidateStepTame(opts: Options, s: State, step: Step, most: nat)
    requires opts.backpressureThreshold > 0 && (s.probe.transport.Some? ==> s.ws.None? && s.upgradeState == Upgrading)
    requires step.UpgradeIn? || step.ProbeClose? || step.ProbeDrain? || step.UpgradeTimeout?
    ensures OutletTame(opts, s, Apply(opts, s, step), most)
  {
    if s.probe.transport.Some? {
      if step.ProbeDrain? {
        CandidateTame(opts, s, Apply(opts, s, step), W.OpDrain(step.buffered, step.room), most);
      } else if Apply(opts, s, step).probe.transport != s.probe.transport {
        CandidateTame(opts, s, Apply(opts, s, step), W.OpClose, most);
      }
    }
  }

  // ----- all steps, all runs -----

  predicate IsSending(step: Step) {
    step.DoWrite? || step.DoBroadcast? || step.FrameIn? || step.PostIn? || step.PingTimer? || step.StrayPingTimer?
  }

  lemma SendingTame(opts: Options, s: State, step: Step, most: nat)
    requires opts.backpressureThreshold > 0 && SendsAccepted(s) && IsSending(step)
    ensures Tame(opts, s, Apply(opts, s, step), most)
  {
    match step
    case DoWrite(data) => WriteTame(opts, s, data, most);
    case DoBroadcast(data) => BroadcastTame(opts, s, data, most);
    case PostIn(ps) => PostTame(opts, s, ps, most);
    case FrameIn(frame) => FrameTame(opts, s, frame, most);
    case PingTimer => IntervalTame(opts, s, most);
    case StrayPingTimer => StrayTame(opts, s, most);
  }

  predicate IsEnding(step: Step) {
    || step.DoClose? || step.PollIn? || step.PollTimeout? || step.PollAbort?
    || step.WsClose? || step.WsDrain? || step.PingTimeoutTimer?
  }

  lemma EndingTame(opts: Options, s: State, step: Step, most: nat)
    requires opts.backpressureThreshold > 0 && IsEnding(step)
    ensures Tame(opts, s, Apply(opts, s, step), most)
  {
    match step
    case DoClose => CloseTame(opts, s, most);
    case PollIn => PollTame(opts, s, most);
    case PollTimeout(poll) => PollEndsTame(opts, s, poll, most);
    case PollAbort(poll) => PollEndsTame(opts, s, poll, most);
    case WsClose => WebSocketClosesTame(opts, s, most);
    case WsDrain(b, r) => DrainTame(opts, s, b, r, most);
    case PingTimeoutTimer => PingTimesOutTame(opts, s, most);
  }

  /** The other steps leave both WebSockets alone. */
  lemma IdleTame(opts: Options, s: State, step: Step, most: nat)
    requires step.EnablePacketCreate? || step.NoopTimer? || step.LimiterTimer? || step.Wait?
    ensures Tame(opts, s, Apply(opts, s, step), most)
  {
    AwayTame(opts, s, Apply(opts, s, step), most);
  }

  lemma StepTame(opts: Options, s: State, step: Step, most: nat)
    requires Inv(s) && opts.backpressureThreshold > 0 && W.FrameBytes(opts, [PROBE_PONG]) <= most
    ensures OutletTame(opts, s, Apply(opts, s, step), most)
  {
    if IsSending(step) {
      SendingTame(opts, s, step, most);
      TameOutlet(opts, s, Apply(opts, s, step), most);
    } else if IsEnding(step) {
      EndingTame(opts, s, step, most);
      TameOutlet(opts, s, Apply(opts, s, step), most);
    } else if step.ProbeFrameIn? {
      CandidateFrameTame(opts, s, step.frame, most);
    } else if step.EnablePacketCreate? || step.NoopTimer? || step.LimiterTimer? || step.Wait? {
      IdleTame(opts, s, step, most);
      TameOutlet(opts, s, Apply(opts, s, step), most);
    } else {
      CandidateStepTame(opts, s, step, most);
    }
  }

  lemma {:induction false} RunTame(opts: Options, s: State, steps: seq<Step>, most: nat)
    requires Inv(s) && opts.backpressureThreshold > 0 && W.FrameBytes(opts, [PROBE_PONG]) <= most
    ensures OutletTame(opts, s, Run(opts, s, steps), most)
    decreases |steps|
  {
    if steps != [] {
      var t := Apply(opts, s, steps[0]);
      StepKeeps(opts, s, steps[0]);
      StepTame(opts, s, steps[0], most);
      RunTame(opts, t, steps[1..], most);
      OutletTrans(opts, s, t, Run(opts, s, steps), most);
    }
  }

  lemma BornBounded(opts: Options, b: Birth, most: nat)
    requires opts.backpressureThreshold > 0 && Fits(opts, Born(opts, b), most)
    ensures OutletBounded(opts, Born(opts, b), most)
  {
    var s := Fresh(opts, b.webSocket, b.room, b.now).(readyState := OPEN);
    SendPacketTame(opts, s, OpenPacket(b), most);
    TameOutlet(opts, s, SendPacket(opts, s, OpenPacket(b)), most);
  }

  /**
   * In every run in which no call of send() was handed more than `most` bytes, the reply to
   * a probe included, what the session's WebSocket has buffered stays within the threshold
   * and 32 calls, and while it can send, within the threshold and the calls since the last
   * check.
   */
  lemma SessionStaysBounded(opts: Options, b: Birth, steps: seq<Step>, most: nat)
    requires opts.backpressureThreshold > 0 && W.FrameBytes(opts, [PROBE_PONG]) <= most
    requires Fits(opts, Life(opts, b, steps), most)
    ensures var s := Life(opts, b, steps);
            s.ws.Some? ==>
              && s.ws.value.buffered <= opts.backpressureThreshold + 32 * most
              && (W.CanSend(s.ws.value) ==>
                    s.ws.value.buffered <= opts.backpressureThreshold + s.ws.value.sendCount % 32 * most)
  {
    BornOpens(opts, b);
    RunTame(opts, Born(opts, b), steps, most);
    BornBounded(opts, b, most);
  }
}
