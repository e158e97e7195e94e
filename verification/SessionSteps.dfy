/** Every step of a session keeps the invariant and moves forward. */
module SessionSteps {
  import opened Packets
  import opened Transport
  import opened Session
  import opened SessionInvariants
  import Parser
  import H = Heartbeat
  import L = RateLimiting
  import P = PollingTransport
  import W = WebSocketTransport

  ghost predicate Kept(s: State, t: State) {
    Inv(t) && Progress(s, t)
  }

  lemma KeptTrans(s: State, t: State, u: State)
    requires Kept(s, t) && Kept(t, u)
    ensures Kept(s, u)
  {
    ProgressTrans(s, t, u);
  }

  /** Counters, the message budget and the packet trace are not part of the invariant. */
  lemma SideFields(s: State, t: State)
    requires t == s.(meter := t.meter, log := s.log.(trace := t.log.trace))
    ensures Inv(s) ==> Kept(s, t)
    ensures Base(s) ==> Base(t)
  {}

  /** The transports change, and no session packet moves. */
  predicate SameWire(s: State, t: State) {
    && t == s.(polling := t.polling, ws := t.ws)
    && Delivered(t) == Delivered(s)
    && (s.polling.Some? <==> t.polling.Some?) && (s.ws.Some? <==> t.ws.Some?)
    && (s.ws.Some? && s.ws.value.link != W.Connected ==> t.ws.value.link != W.Connected)
  }

  lemma SameWireHistory(s: State, t: State)
    requires SameWire(s, t)
    ensures Conserved(s) ==> Conserved(t)
    ensures Reported(s) ==> Reported(t)
    ensures Progress(s, t)
  {
    if Conserved(s) {
      assert Ledger(t.out, Delivered(t));
    }
  }

  /** Neither transport became writable. */
  predicate NotMoreWritable(s: State, t: State) {
    Writable(t) ==> Writable(s)
  }

  lemma SameWireKept(s: State, t: State)
    requires Inv(s) && SameWire(s, t) && NotMoreWritable(s, t)
    requires Links(t) && PollingOpen(t)
    ensures Kept(s, t)
  {
    SameWireHistory(s, t);
  }

  lemma HeartField(s: State, t: State)
    requires t == s.(heart := t.heart) && Inv(s)
    ensures Kept(s, t)
  {}

  lemma EmitKeeps(s: State, e: Event)
    requires Inv(s) && !e.Closed? && e != UpgradeDone
    requires s.readyState != CLOSED || e == UpgradeStarted
    ensures Kept(s, Emit(s, e))
  {
    EmitKeepsReported(s, e);
  }

  // ----- sending -----

  /** A packet the session may send in its own name. */
  predicate IsSession(p: Packet) {
    !IsControl(p) && Parser.Encodable(p)
  }

  /** A packet joins the buffer. */
  lemma PushKeepsBase(s: State, p: Packet)
    requires Inv(s) && Accepting(s) && IsSession(p)
    ensures var t := s.(out := s.out.(buffer := s.out.buffer + [p], accepted := s.out.accepted + [p]));
            Base(t) && PollingOpen(t) && Progress(s, t)
  {
    OutgoingSingle(p);
    OutgoingConcat(s.out.accepted, [p]);
  }

  lemma PushedKeepsBase(opts: Options, s: State, p: Packet)
    requires Inv(s) && Accepting(s) && IsSession(p)
    ensures Base(Pushed(opts, s, p)) && PollingOpen(Pushed(opts, s, p)) && Progress(s, Pushed(opts, s, p))
  {
    var s1 := if p.kind == Message then CountSent(opts, s, p.data) else s;
    var s2 := if s.meter.packetCreate then Note(s1, PacketCreated(p)) else s1;
    SideFields(s, s2);
    PushKeepsBase(s2, p);
    ProgressTrans(s, s2, Pushed(opts, s, p));
  }

  /** Sending a packet neither closes the session nor reports anything. */
  predicate OnlySent(s: State, t: State) {
    t.readyState == s.readyState && t.log.events == s.log.events
  }

  lemma SendPacketIsFlush(opts: Options, s: State, p: Packet)
    ensures SendPacket(opts, s, p) == if Accepting(s) then Flush(opts, Pushed(opts, s, p)) else s
  {}

  lemma FlushPushedKeeps(opts: Options, s: State, p: Packet)
    requires Inv(s) && Accepting(s) && IsSession(p)
    ensures Kept(s, Flush(opts, Pushed(opts, s, p))) && OnlySent(s, Flush(opts, Pushed(opts, s, p)))
  {
    var s1 := Pushed(opts, s, p);
    PushedKeepsBase(opts, s, p);
    FlushKeeps(opts, s1);
    ProgressTrans(s, s1, Flush(opts, s1));
  }

  lemma SendPacketKeeps(opts: Options, s: State, p: Packet)
    requires Inv(s) && IsSession(p)
    ensures Kept(s, SendPacket(opts, s, p)) && OnlySent(s, SendPacket(opts, s, p))
  {
    SendPacketIsFlush(opts, s, p);
    if Accepting(s) {
      FlushPushedKeeps(opts, s, p);
    }
  }

  /** A transport that is done sends nothing. */
  lemma SendRawRefused(opts: Options, s: State, p: Packet)
    requires Inv(s) && s.ws.Some? && !(Accepting(s) && s.ws.value.writable)
    ensures SendRaw(opts, s, p) == s
  {}

  lemma SendRawConserves(opts: Options, s: State, p: Packet)
    requires Conserved(s) && Sound(s.polling, s.ws) && s.out.buffer == []
    requires s.ws.Some? && Accepting(s) && s.ws.value.writable && IsSession(p)
    ensures var t := SendRaw(opts, s, p);
            Conserved(t) && Delivered(s) <= Delivered(t) && s.out.lost <= t.out.lost
  {
    OutgoingSingle(p);
    OutgoingConcat(s.out.accepted, [p]);
    var t := SendRaw(opts, s, p);
    WebSocketSend(opts, s.ws.value, [p]);
    Carried(Polled(s.polling), Framed(s.ws), Polled(t.polling), Framed(t.ws), s.out.lost, t.out.lost, [p]);
  }

  lemma SendRawLinks(opts: Options, s: State, p: Packet)
    requires Sound(s.polling, s.ws) && s.ws.Some? && IsSession(p)
    ensures var t := SendRaw(opts, s, p);
            Sound(t.polling, t.ws) && t.polling == s.polling && t.ws.value.link == s.ws.value.link
  {
    AllOnWireSingle(p);
    FramesAppend(s.ws.value, opts, [p]);
    WebSocketSend(opts, s.ws.value, [p]);
  }

  /** Only the bound WebSocket and the ledger change. */
  lemma SendRawFrame(opts: Options, s: State, p: Packet)
    requires s.ws.Some? && Accepting(s) && s.ws.value.writable
    ensures var t := SendRaw(opts, s, p);
            && t == s.(ws := t.ws, out := t.out) && t.ws.Some?
            && t.out.buffer == s.out.buffer && t.out.closeOnDrain == s.out.closeOnDrain
            && t.out.accepted == s.out.accepted + [p]
  {}

  lemma BookProgress(s: State, t: State)
    requires Accepting(s) && s.ws.Some? && t.ws.Some? && t.ws.value.link == s.ws.value.link
    requires t == s.(ws := t.ws, out := t.out)
    requires Delivered(s) <= Delivered(t) && s.out.lost <= t.out.lost && s.out.accepted <= t.out.accepted
    ensures Progress(s, t)
  {}

  lemma BookKept(s: State, t: State)
    requires Inv(s) && Accepting(s) && s.out.buffer == [] && s.ws.Some? && t.ws.Some?
    requires t == s.(ws := t.ws, out := t.out) && t.out.buffer == [] && t.out.closeOnDrain == s.out.closeOnDrain
    requires Sound(t.polling, t.ws) && Conserved(t) && Progress(s, t)
    ensures Kept(s, t)
  {
    assert Reported(t);
  }

  lemma SendRawTaken(opts: Options, s: State, p: Packet)
    requires Inv(s) && s.ws.Some? && Accepting(s) && s.ws.value.writable && IsSession(p)
    ensures Kept(s, SendRaw(opts, s, p))
  {
    SendRawFrame(opts, s, p);
    SendRawLinks(opts, s, p);
    SendRawConserves(opts, s, p);
    BookProgress(s, SendRaw(opts, s, p));
    BookKept(s, SendRaw(opts, s, p));
  }

  lemma SendRawKeeps(opts: Options, s: State, p: Packet)
    requires Inv(s) && s.ws.Some? && IsSession(p)
    ensures Kept(s, SendRaw(opts, s, p))
    ensures OnlySent(s, SendRaw(opts, s, p))
  {
    if Accepting(s) && s.ws.value.writable {
      SendRawTaken(opts, s, p);
    } else {
      SendRawRefused(opts, s, p);
    }
  }

  lemma SendPingOrPongKeeps(opts: Options, s: State, kind: PacketType)
    requires Inv(s) && (kind == Ping || kind == Pong)
    ensures Kept(s, SendPingOrPong(opts, s, kind))
    ensures OnlySent(s, SendPingOrPong(opts, s, kind))
  {
    var p := Packet(kind, None);
    if RawPath(s) {
      SendRawKeeps(opts, s, p);
    } else {
      SendPacketKeeps(opts, s, p);
    }
  }

  lemma CountSentKeeps(opts: Options, s: State, t: State, data: Option<RawData>)
    requires Kept(s, t)
    ensures Kept(s, CountSent(opts, t, data))
  {
    SideFields(t, CountSent(opts, t, data));
    KeptTrans(s, t, CountSent(opts, t, data));
  }

  lemma WriteKeeps(opts: Options, s: State, data: RawData)
    requires Inv(s)
    ensures Kept(s, Write(opts, s, data))
    ensures OnlySent(s, Write(opts, s, data))
  {
    var p := Packet(Message, Some(data));
    if Accepting(s) && s.ws.Some? && !s.meter.packetCreate && s.out.buffer == [] && W.CanSend(s.ws.value) {
      SendRawKeeps(opts, s, p);
      CountSentKeeps(opts, s, SendRaw(opts, s, p), p.data);
    } else {
      SendPacketKeeps(opts, s, p);
    }
  }

  lemma BroadcastKeeps(opts: Options, s: State, data: RawData)
    requires Inv(s)
    ensures Kept(s, Broadcast(opts, s, data))
    ensures OnlySent(s, Broadcast(opts, s, data))
  {
    var p := Packet(Message, Some(data));
    if s.ws.Some? {
      SendRawKeeps(opts, s, p);
      CountSentKeeps(opts, s, SendRaw(opts, s, p), p.data);
    } else {
      WriteKeeps(opts, s, data);
    }
  }

  // ----- closing -----

  lemma LiveIsClosable(s: State)
    requires Base(s) && PollingOpen(s) && s.readyState != CLOSED
    ensures Closable(s)
  {}

  lemma OnCloseFromLive(s: State, reason: CloseReason)
    requires Inv(s) && reason != ForcedClose
    ensures Kept(s, OnClose(s, reason))
  {
    if s.readyState != CLOSED {
      LiveIsClosable(s);
      OnCloseKeeps(s, reason);
    }
  }

  lemma CloseSessionKeeps(s: State)
    requires Inv(s)
    ensures Kept(s, CloseSession(s))
  {
    if s.readyState == OPEN {
      var s1 := s.(readyState := CLOSING);
      if s.out.buffer != [] {
        assert CloseSession(s) == s1.(out := s.out.(closeOnDrain := true));
      } else {
        LiveIsClosable(s1);
        FinishCloseKeeps(s1);
        ProgressTrans(s, s1, FinishClose(s1));
      }
    }
  }

  // ----- receiving -----

  lemma OnMessageKeeps(opts: Options, s: State, data: Option<RawData>)
    requires Inv(s) && s.readyState != CLOSED
    ensures Kept(s, OnMessage(opts, s, data))
  {
    if s.meter.limiter.Some? && !L.Allows(s.meter.limiter.value) {
      EmitKeeps(s, RateLimited);
    } else {
      var s1 := s.(meter := Tallied(opts, Spent(s.meter), data));
      SideFields(s, s1);
      EmitKeeps(s1, Data(data));
      KeptTrans(s, s1, Emit(s1, Data(data)));
    }
  }

  lemma PongKeeps(opts: Options, s: State)
    requires Inv(s) && s.readyState != CLOSED
    ensures Kept(s, Emit(s.(heart := H.PongAccepted(opts, s.heart)), HeartbeatSeen))
  {
    var s1 := s.(heart := H.PongAccepted(opts, s.heart));
    HeartField(s, s1);
    EmitKeeps(s1, HeartbeatSeen);
    KeptTrans(s, s1, Emit(s1, HeartbeatSeen));
  }

  lemma OnPacketKeeps(opts: Options, s: State, p: Packet)
    requires Inv(s)
    ensures Kept(s, OnPacket(opts, s, p))
  {
    if s.readyState == OPEN {
      var s1 := Note(s, PacketSeen(p));
      SideFields(s, s1);
      match p.kind
      case Pong => PongKeeps(opts, s1);
      case Ping => SendPingOrPongKeeps(opts, s1, Pong);
      case Message => OnMessageKeeps(opts, s1, p.data);
      case _ => OnCloseFromLive(s1, ParseError);
      KeptTrans(s, s1, OnPacket(opts, s, p));
    }
  }

  lemma TransportFailedKeeps(s: State)
    requires Inv(s)
    ensures Kept(s, TransportFailed(s))
  {
    OnCloseFromLive(s, TransportError);
  }

  // ----- polling -----

  lemma PollingLinks(s: State, p: P.State)
    requires Links(s) && s.polling.Some? && PollingSound(p)
    requires p.readyState == s.polling.value.readyState && (p.writable ==> s.polling.value.writable)
    ensures Links(s.(polling := Some(p)))
  {}

  lemma PollingField(s: State, p: P.State)
    requires Inv(s) && s.polling.Some? && PollingSound(p)
    requires p.readyState == s.polling.value.readyState && Answers(p.settled) == Answers(s.polling.value.settled)
    requires p.writable ==> s.polling.value.writable
    ensures Kept(s, s.(polling := Some(p)))
  {
    var t := s.(polling := Some(p));
    assert Polled(t.polling) == Polled(s.polling);
    PollingLinks(s, p);
    SameWireKept(s, t);
  }

  lemma PollAcceptedKeeps(opts: Options, s: State)
    requires Inv(s) && s.readyState != CLOSED && s.ws.None? && s.polling.value.pending.None?
    ensures Kept(s, PollArrives(opts, s))
    ensures s.readyState == OPEN ==> PollArrives(opts, s).readyState == OPEN
  {
    PollingQuiet(s.polling.value, P.OpArrive);
    var s1 := s.(polling := Some(P.Accept(s.polling.value)));
    assert Base(s1) && PollingOpen(s1) && Progress(s, s1);
    FlushKeeps(opts, s1);
    ProgressTrans(s, s1, Flush(opts, s1));
  }

  lemma PollingRefuse(p: P.State)
    requires PollingSound(p)
    ensures PollingSound(P.Refuse(p)) && Answers(P.Refuse(p).settled) == Answers(p.settled)
  {
    P.OneMorePoll(p.settled, p.polls);
    P.SettlesAppend(p.settled, P.Refused(p.polls));
    AnswersAppend(p.settled, P.Refused(p.polls));
  }

  lemma PollOverlapKeeps(opts: Options, s: State)
    requires Inv(s) && s.readyState != CLOSED && s.ws.None? && s.polling.value.pending.Some?
    ensures Kept(s, PollArrives(opts, s))
  {
    TransportFailedKeeps(s);
    var s1 := TransportFailed(s);
    PollingRefuse(s1.polling.value);
    PollingField(s1, P.Refuse(s1.polling.value));
    KeptTrans(s, s1, PollArrives(opts, s));
  }

  lemma PollTimesOutKeeps(s: State, poll: nat)
    requires Inv(s)
    ensures Kept(s, PollTimesOut(s, poll))
  {
    if s.polling.Some? {
      var p := P.Expire(s.polling.value, poll);
      PollingQuiet(s.polling.value, P.OpExpire(poll));
      PollingField(s, p);
      var s1 := s.(polling := Some(p));
      TransportFailedKeeps(s1);
      KeptTrans(s, s1, TransportFailed(s1));
    }
  }

  lemma PollAbortsKeeps(s: State, poll: nat)
    requires Inv(s)
    ensures Kept(s, PollAborts(s, poll))
  {
    if s.polling.Some? {
      var p := P.Abort(s.polling.value, poll);
      PollingQuiet(s.polling.value, P.OpAbort(poll));
      PollingField(s, p);
      var s1 := s.(polling := Some(p));
      TransportFailedKeeps(s1);
      KeptTrans(s, s1, TransportFailed(s1));
    }
  }

  /** Closing a polling transport that is closed already changes nothing. */
  lemma DoCloseAgain(p: P.State)
    requires P.Inv(p) && p.readyState == CLOSED && !p.writable
    ensures P.DoClose(p) == p
  {}

  lemma ClientCloseKeeps(opts: Options, s: State)
    requires Inv(s) && s.polling.Some?
    ensures Kept(s, PostedPacket(opts, s, Packet(Close, None)))
  {
    var p := s.polling.value;
    if s.readyState == CLOSED || s.ws.Some? {
      DoCloseAgain(p);
    } else {
      PollingDoClose(p);
      var s1 := s.(polling := Some(P.DoClose(p)));
      assert Base(s1) && Progress(s, s1);
      assert TransportsReady(s1.polling, s1.ws);
      OnCloseKeeps(s1, TransportClose);
      ProgressTrans(s, s1, OnClose(s1, TransportClose));
    }
  }

  lemma PostedPacketKeeps(opts: Options, s: State, p: Packet)
    requires Inv(s)
    ensures Kept(s, PostedPacket(opts, s, p))
  {
    if s.polling.Some? {
      if p.kind == Close {
        ClientCloseKeeps(opts, s);
        assert PostedPacket(opts, s, p) == PostedPacket(opts, s, Packet(Close, None));
      } else if s.ws.None? {
        OnPacketKeeps(opts, s, p);
      }
    }
  }

  lemma {:induction false} PostArrivesKeeps(opts: Options, s: State, ps: seq<Packet>)
    requires Inv(s)
    ensures Kept(s, PostArrives(opts, s, ps))
    decreases |ps|
  {
    if ps != [] {
      var s1 := PostedPacket(opts, s, ps[0]);
      PostedPacketKeeps(opts, s, ps[0]);
      PostArrivesKeeps(opts, s1, ps[1..]);
      KeptTrans(s, s1, PostArrives(opts, s, ps));
    }
  }

  // ----- WebSocket -----

  /** A WebSocket transport that sent nothing and did not become writable. */
  predicate Quieter(w: W.State, v: W.State) {
    && v.frames == w.frames && (v.writable ==> w.writable)
    && WebSocketSound(v) && (w.link != W.Connected ==> v.link != W.Connected)
  }

  lemma WebSocketField(s: State, v: W.State)
    requires Inv(s) && s.ws.Some? && Quieter(s.ws.value, v)
    ensures Kept(s, s.(ws := Some(v)))
  {
    assert Framed(Some(v)) == Framed(s.ws);
    SameWireKept(s, s.(ws := Some(v)));
  }

  lemma ResumedKeeps(opts: Options, s: State)
    requires Inv(s) && s.ws.Some?
    ensures Kept(s, Resumed(opts, s))
  {
    var s1 := s.(ws := Some(W.Resume(opts, s.ws.value)));
    if W.Resumes(opts, s.ws.value) {
      assert Base(s1) && PollingOpen(s1) && Progress(s, s1);
      if s1.attached {
        FlushKeeps(opts, s1);
        ProgressTrans(s, s1, Flush(opts, s1));
      }
    }
  }

  lemma DispatchKeeps(opts: Options, s: State, frame: RawData)
    requires Inv(s)
    ensures Kept(s, Dispatch(opts, s, frame))
  {
    if !IsMessageText(frame) {
      DecodedFrameKeeps(opts, s, Parser.DecodePacket(frame));
    } else if s.readyState == OPEN {
      OnMessageKeeps(opts, s, MessageData(frame));
    }
  }

  lemma FrameArrivesKeeps(opts: Options, s: State, frame: RawData)
    requires Inv(s)
    ensures Kept(s, FrameArrives(opts, s, frame))
  {
    if s.ws.Some? && s.ws.value.link != W.Disconnected {
      ResumedKeeps(opts, s);
      DispatchKeeps(opts, Resumed(opts, s), frame);
      KeptTrans(s, Resumed(opts, s), FrameArrives(opts, s, frame));
    }
  }

  lemma DecodedFrameKeeps(opts: Options, s: State, p: Packet)
    requires Inv(s)
    ensures Kept(s, DecodedFrame(opts, s, p))
  {
    if p.kind == Close {
      if s.ws.Some? {
        WebSocketField(s, W.DoClose(s.ws.value));
      }
    } else {
      OnPacketKeeps(opts, s, p);
    }
  }

  lemma WebSocketClosesKeeps(s: State)
    requires Inv(s)
    ensures Kept(s, WebSocketCloses(s))
  {
    if s.ws.Some? {
      var s1 := s.(ws := Some(W.CloseEvent(s.ws.value)));
      WebSocketField(s, W.CloseEvent(s.ws.value));
      OnCloseFromLive(s1, TransportClose);
      KeptTrans(s, s1, TransportClosed(s1));
    }
  }

  // ----- the upgrade -----

  /** The candidate and its timers, while it stays a candidate. */
  lemma CandidateField(s: State, t: State)
    requires Inv(s) && CandidateSound(t.probe.transport)
    requires s.probe.transport.Some? && (t.probe.timeout || t.probe.noopTimer ==> t.probe.transport.Some?)
    requires t == s.(probe := t.probe)
    ensures Kept(s, t)
  {}

  lemma UpgradeRequestedKeeps(s: State, room: nat)
    requires Inv(s)
    ensures Kept(s, UpgradeRequested(s, room))
  {}

  lemma SendNoopKeeps(opts: Options, s: State)
    requires Inv(s)
    ensures Kept(s, SendNoop(opts, s))
    ensures SendNoop(opts, s) == s.(polling := SendNoop(opts, s).polling)
  {
    if s.ws.None? && s.polling.Some? && s.polling.value.writable {
      var p := s.polling.value;
      AllOnWireSingle(Packet(Noop, None));
      PollingSend(p, [Packet(Noop, None)]);
      OneControl(Packet(Noop, None));
      NoopField(s, P.Send(p, [Packet(Noop, None)]));
    }
  }

  lemma NoopField(s: State, p: P.State)
    requires Inv(s) && s.polling.Some? && s.ws.None? && PollingSound(p) && !p.writable
    requires p.readyState == s.polling.value.readyState
    requires SessionPackets(Answers(p.settled)) == SessionPackets(Answers(s.polling.value.settled))
    ensures Kept(s, s.(polling := Some(p)))
  {}

  /** The WebSocket is bound, the old transport closed; the backlog is still to be sent. */
  function Rebound(s: State, w: W.State): State {
    Emit(s.(
      upgradeState := Upgraded, ws := Some(w), attached := true,
      probe := s.probe.(transport := None, timeout := false, noopTimer := false),
      polling := if s.polling.Some? then Some(P.Shut(s.polling.value)) else None), UpgradeDone)
  }

  lemma ReboundWire(s: State, w: W.State)
    requires Inv(s) && s.probe.transport == Some(w)
    ensures Delivered(Rebound(s, w)) == Delivered(s) && s.out.lost == []
    ensures Sound(Rebound(s, w).polling, Rebound(s, w).ws)
  {
    PollingShut(s.polling.value);
    assert Framed(s.ws) == Framed(Some(w)) == [];
  }

  lemma ReboundReports(s: State, w: W.State)
    requires Reported(s) && s.readyState != CLOSED && s.upgradeState == Upgrading
    ensures Reported(Rebound(s, w))
  {
    EmitCounts(s.log.events, UpgradeDone);
  }

  lemma ReboundKeepsBase(s: State, w: W.State)
    requires Inv(s) && s.probe.transport == Some(w) && s.readyState != CLOSED
    ensures Base(Rebound(s, w)) && PollingOpen(Rebound(s, w)) && Progress(s, Rebound(s, w))
  {
    ReboundWire(s, w);
    ReboundReports(s, w);
  }

  lemma TakeOverKeeps(opts: Options, s: State, w: W.State)
    requires Inv(s) && s.probe.transport == Some(w) && s.readyState != CLOSED
    ensures Kept(s, TakeOver(opts, s, w))
  {
    ReboundKeepsBase(s, w);
    FlushKeeps(opts, Rebound(s, w));
    ProgressTrans(s, Rebound(s, w), TakeOver(opts, s, w));
  }

  lemma ProbeAnswered(opts: Options, s: State)
    requires Inv(s) && s.probe.transport.Some?
    ensures Kept(s, Probing(s, W.Send(opts, s.probe.transport.value, [PROBE_PONG])))
  {
    OneControl(PROBE_PONG);
    AllOnWireSingle(PROBE_PONG);
    WebSocketSend(opts, s.probe.transport.value, [PROBE_PONG]);
    FramesAppend(s.probe.transport.value, opts, [PROBE_PONG]);
    CandidateField(s, Probing(s, W.Send(opts, s.probe.transport.value, [PROBE_PONG])));
  }

  lemma NoopTimerStarted(s: State)
    requires Inv(s) && s.probe.transport.Some?
    ensures Kept(s, Emit(s.(probe := StartNoopTimer(s.probe)), UpgradeStarted))
  {
    var s1 := s.(probe := StartNoopTimer(s.probe));
    CandidateField(s, s1);
    EmitKeeps(s1, UpgradeStarted);
    KeptTrans(s, s1, Emit(s1, UpgradeStarted));
  }

  lemma ProbeKeeps(opts: Options, s: State)
    requires Inv(s) && s.probe.transport.Some?
    ensures Kept(s, CandidatePacket(opts, s, Packet(Ping, Some(Text("probe")))))
  {
    var s1 := Probing(s, W.Send(opts, s.probe.transport.value, [PROBE_PONG]));
    var s2 := SendNoop(opts, s1);
    ProbeAnswered(opts, s);
    SendNoopKeeps(opts, s1);
    NoopTimerStarted(s2);
    KeptTrans(s, s1, s2);
    KeptTrans(s, s2, CandidatePacket(opts, s, Packet(Ping, Some(Text("probe")))));
  }

  lemma CandidatePacketKeeps(opts: Options, s: State, p: Packet)
    requires Inv(s) && s.probe.transport.Some?
    ensures Kept(s, CandidatePacket(opts, s, p))
  {
    if p == Packet(Ping, Some(Text("probe"))) {
      ProbeKeeps(opts, s);
    } else if p.kind == Upgrade && s.readyState != CLOSED {
      TakeOverKeeps(opts, s, s.probe.transport.value);
    } else {
      CandidateField(s, CandidatePacket(opts, s, p));
    }
  }

  lemma ProbingKeeps(s: State, w: W.State)
    requires Inv(s) && s.probe.transport.Some? && CandidateSound(Some(w))
    ensures Kept(s, Probing(s, w))
  {
    CandidateField(s, Probing(s, w));
  }

  lemma CandidateQuiet(opts: Options, w: W.State)
    requires CandidateSound(Some(w))
    ensures CandidateSound(Some(W.Resume(opts, w))) && CandidateSound(Some(W.DoClose(W.Resume(opts, w))))
  {}

  lemma CandidateFrameKeeps(opts: Options, s: State, frame: RawData)
    requires Inv(s)
    ensures Kept(s, CandidateFrame(opts, s, frame))
  {
    if s.probe.transport.Some? && s.probe.transport.value.link != W.Disconnected {
      var w := W.Resume(opts, s.probe.transport.value);
      var p := Parser.DecodePacket(frame);
      CandidateQuiet(opts, s.probe.transport.value);
      if p.kind == Close {
        ProbingKeeps(s, W.DoClose(w));
      } else {
        ProbingKeeps(s, w);
        CandidatePacketKeeps(opts, Probing(s, w), p);
        KeptTrans(s, Probing(s, w), CandidatePacket(opts, Probing(s, w), p));
      }
    }
  }

  lemma CandidateClosesKeeps(s: State)
    requires Inv(s)
    ensures Kept(s, CandidateCloses(s))
  {
    if s.probe.transport.Some? {
      CandidateField(s, CandidateCloses(s));
    }
  }

  lemma CandidateDrainsKeeps(s: State, buffered: nat, room: nat)
    requires Inv(s)
    ensures Kept(s, CandidateDrains(s, buffered, room))
  {
    if s.probe.transport.Some? {
      CandidateField(s, CandidateDrains(s, buffered, room));
    }
  }

  lemma UpgradeTimesOutKeeps(s: State)
    requires Inv(s)
    ensures Kept(s, UpgradeTimesOut(s))
  {
    if s.probe.transport.Some? {
      CandidateField(s, UpgradeTimesOut(s));
    }
  }

  // ----- time -----

  lemma SendPingKeeps(opts: Options, s: State, h: H.State)
    requires Inv(s)
    ensures Kept(s, SendPing(opts, s.(heart := h)))
  {
    var s1 := s.(heart := h);
    var s2 := SendPingOrPong(opts, s1, Ping);
    HeartField(s, s1);
    SendPingOrPongKeeps(opts, s1, Ping);
    HeartField(s2, SendPing(opts, s1));
    KeptTrans(s, s1, s2);
    KeptTrans(s, s2, SendPing(opts, s1));
  }

  lemma PingTimesOutKeeps(s: State)
    requires Inv(s)
    ensures Kept(s, PingTimesOut(s))
  {
    if H.TimeoutDue(s.heart) {
      var s1 := s.(heart := H.FireTimeout(s.heart));
      HeartField(s, s1);
      OnCloseFromLive(s1, PingTimeout);
      KeptTrans(s, s1, OnClose(s1, PingTimeout));
    }
  }

  lemma IntervalFiresKeeps(opts: Options, s: State)
    requires Inv(s)
    ensures Kept(s, IntervalFires(opts, s))
  {
    SendPingKeeps(opts, s, H.FireInterval(s.heart));
  }

  lemma StrayFiresKeeps(opts: Options, s: State)
    requires Inv(s)
    ensures Kept(s, StrayFires(opts, s))
  {
    SendPingKeeps(opts, s, H.FireStray(s.heart));
  }

  lemma NoopTickKeeps(opts: Options, s: State)
    requires Inv(s)
    ensures Kept(s, NoopTick(opts, s))
  {
    SendNoopKeeps(opts, s);
  }

  // ----- all steps, all runs -----

  lemma LimiterTickKeeps(s: State)
    requires Inv(s)
    ensures Kept(s, LimiterTick(s))
  {
    SideFields(s, LimiterTick(s));
  }

  lemma WebSocketDrainsKeeps(s: State, buffered: nat, room: nat)
    requires Inv(s)
    ensures Kept(s, WebSocketDrains(s, buffered, room))
  {
    if s.ws.Some? {
      WebSocketField(s, W.Drain(s.ws.value, buffered, room));
    }
  }

  lemma PollArrivesKeeps(opts: Options, s: State)
    requires Inv(s)
    ensures Kept(s, PollArrives(opts, s))
  {
    if s.readyState != CLOSED && s.ws.None? && s.polling.Some? {
      if s.polling.value.pending.Some? {
        PollOverlapKeeps(opts, s);
      } else {
        PollAcceptedKeeps(opts, s);
      }
    }
  }

  predicate IsTimerStep(step: Step) {
    step.PingTimer? || step.StrayPingTimer? || step.PingTimeoutTimer? || step.LimiterTimer? || step.Wait?
  }

  lemma OuterStepKeeps(opts: Options, s: State, step: Step)
    requires Inv(s) && IsOuterStep(step)
    ensures Kept(s, Apply(opts, s, step))
  {
    match step
    case DoWrite(data) => WriteKeeps(opts, s, data);
    case DoBroadcast(data) => BroadcastKeeps(opts, s, data);
    case DoClose => CloseSessionKeeps(s);
    case EnablePacketCreate => SideFields(s, s.(meter := s.meter.(packetCreate := true)));
    case PollIn => PollArrivesKeeps(opts, s);
    case PollTimeout(poll) => PollTimesOutKeeps(s, poll);
    case PollAbort(poll) => PollAbortsKeeps(s, poll);
    case PostIn(ps) => PostArrivesKeeps(opts, s, ps);
  }

  lemma PingStepKeeps(opts: Options, s: State, step: Step)
    requires Inv(s) && (step.PingTimer? || step.StrayPingTimer?)
    ensures Kept(s, Apply(opts, s, step))
  {
    if step.PingTimer? {
      IntervalFiresKeeps(opts, s);
    } else {
      StrayFiresKeeps(opts, s);
    }
  }

  lemma TimerStepKeeps(opts: Options, s: State, step: Step)
    requires Inv(s) && IsTimerStep(step)
    ensures Kept(s, Apply(opts, s, step))
  {
    match step
    case PingTimer => PingStepKeeps(opts, s, step);
    case StrayPingTimer => PingStepKeeps(opts, s, step);
    case PingTimeoutTimer => PingTimesOutKeeps(s);
    case LimiterTimer => LimiterTickKeeps(s);
    case Wait(t) => HeartField(s, s.(heart := H.Advance(s.heart, t)));
  }

  lemma WebSocketStepKeeps(opts: Options, s: State, step: Step)
    requires Inv(s) && !IsOuterStep(step) && !IsTimerStep(step)
    ensures Kept(s, Apply(opts, s, step))
  {
    match step
    case FrameIn(frame) => FrameArrivesKeeps(opts, s, frame);
    case WsClose => WebSocketClosesKeeps(s);
    case WsDrain(b, r) => WebSocketDrainsKeeps(s, b, r);
    case UpgradeIn(room) => UpgradeRequestedKeeps(s, room);
    case ProbeFrameIn(frame) => CandidateFrameKeeps(opts, s, frame);
    case ProbeClose => CandidateClosesKeeps(s);
    case ProbeDrain(b, r) => CandidateDrainsKeeps(s, b, r);
    case UpgradeTimeout => UpgradeTimesOutKeeps(s);
    case NoopTimer => NoopTickKeeps(opts, s);
  }

  /** Every step keeps the invariant and moves forward. */
  lemma StepKeeps(opts: Options, s: State, step: Step)
    requires Inv(s)
    ensures Kept(s, Apply(opts, s, step))
  {
    if IsOuterStep(step) {
      OuterStepKeeps(opts, s, step);
    } else if IsTimerStep(step) {
      TimerStepKeeps(opts, s, step);
    } else {
      WebSocketStepKeeps(opts, s, step);
    }
  }

  lemma {:induction false} RunKeeps(opts: Options, s: State, steps: seq<Step>)
    requires Inv(s)
    ensures Kept(s, Run(opts, s, steps))
    decreases |steps|
  {
    if steps != [] {
      var s1 := Apply(opts, s, steps[0]);
      StepKeeps(opts, s, steps[0]);
      RunKeeps(opts, s1, steps[1..]);
      KeptTrans(s, s1, Run(opts, s, steps));
    }
  }
}
