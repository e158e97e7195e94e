/** Packets handed to a Bun socket that is no longer open: when that happens, and when it cannot. */
module SessionLosses {
  import opened Packets
  import opened Transport
  import opened Session
  import opened SessionInvariants
  import opened SessionSteps
  import opened SessionTheorems
  import opened SessionReasons
  import Parser
  import H = Heartbeat
  import P = PollingTransport
  import W = WebSocketTransport

  /** A WebSocket transport that takes packets and has nowhere to put them. */
  predicate Leaks(w: W.State) {
    w.writable && w.link != W.Connected
  }

  predicate LeaksNow(s: State) {
    s.ws.Some? && Leaks(s.ws.value)
  }

  // ----- what each operation loses -----

  function LostByFlush(s: State): seq<Packet> {
    if s.readyState != CLOSED && LeaksNow(s) then s.out.buffer else []
  }

  lemma SendBufferLost(opts: Options, s: State)
    ensures SendBuffer(opts, s).out.lost ==
            (if s.ws.Some? && s.ws.value.link != W.Connected then s.out.lost + s.out.buffer else s.out.lost)
  {}

  lemma FlushLost(opts: Options, s: State)
    ensures Flush(opts, s).out.lost == s.out.lost + LostByFlush(s)
  {
    assert s.out.lost + [] == s.out.lost;
    SendBufferLost(opts, s);
    OnDrainedLost(SendBuffer(opts, s));
  }

  lemma OnDrainedLost(s: State)
    ensures OnDrained(s).out.lost == s.out.lost
  {}

  lemma SendPacketLost(opts: Options, s: State, p: Packet)
    ensures SendPacket(opts, s, p).out.lost == s.out.lost <==> !(Accepting(s) && LeaksNow(s))
    ensures s.out.lost <= SendPacket(opts, s, p).out.lost
  {
    SendPacketIsFlush(opts, s, p);
    FlushLost(opts, Pushed(opts, s, p));
  }

  lemma WriteLost(opts: Options, s: State, data: RawData)
    ensures Write(opts, s, data).out.lost != s.out.lost <==> Accepting(s) && LeaksNow(s)
    ensures Broadcast(opts, s, data).out.lost != s.out.lost <==> Accepting(s) && LeaksNow(s)
  {
    SendPacketLost(opts, s, Packet(Message, Some(data)));
  }

  lemma PingOrPongLost(opts: Options, s: State, kind: PacketType)
    ensures SendPingOrPong(opts, s, kind).out.lost == s.out.lost <==> !(Accepting(s) && LeaksNow(s))
    ensures s.out.lost <= SendPingOrPong(opts, s, kind).out.lost
  {
    SendPacketLost(opts, s, Packet(kind, None));
  }

  lemma OnPacketLost(opts: Options, s: State, p: Packet)
    ensures OnPacket(opts, s, p).out.lost == s.out.lost <==> !(s.readyState == OPEN && p.kind == Ping && LeaksNow(s))
    ensures s.out.lost <= OnPacket(opts, s, p).out.lost
  {
    if s.readyState == OPEN && p.kind == Ping {
      PingOrPongLost(opts, Note(s, PacketSeen(p)), Pong);
    }
  }

  lemma {:induction false} PostLost(opts: Options, s: State, ps: seq<Packet>)
    ensures PostArrives(opts, s, ps).out.lost == s.out.lost
    decreases |ps|
  {
    if ps != [] {
      OnPacketLost(opts, s, ps[0]);
      PostLost(opts, PostedPacket(opts, s, ps[0]), ps[1..]);
    }
  }

  lemma PollLost(opts: Options, s: State)
    ensures PollArrives(opts, s).out.lost == s.out.lost
  {
    if s.ws.None? && s.polling.Some? {
      FlushLost(opts, s.(polling := Some(P.Accept(s.polling.value))));
    }
  }

  lemma ResumedLost(opts: Options, s: State)
    requires s.ws.Some?
    ensures var s1 := s.(ws := Some(W.Resume(opts, s.ws.value)));
            Resumed(opts, s).out.lost ==
            s.out.lost + (if s.attached && W.Resumes(opts, s.ws.value) then LostByFlush(s1) else [])
  {
    assert s.out.lost + [] == s.out.lost;
    FlushLost(opts, s.(ws := Some(W.Resume(opts, s.ws.value))));
  }

  /** On a dead socket a resumed transport stays as it is. */
  lemma ResumedLeaks(opts: Options, s: State)
    requires Inv(s) && s.readyState == OPEN && s.ws.Some? && s.ws.value.link != W.Connected
    ensures var t := Resumed(opts, s);
            t.readyState == OPEN && t.ws == Some(W.Resume(opts, s.ws.value))
  {
    var s1 := s.(ws := Some(W.Resume(opts, s.ws.value)));
    assert Base(s1) && PollingOpen(s1);
    FlushKeeps(opts, s1);
    assert W.Send(opts, s1.ws.value, s.out.buffer) == s1.ws.value;
  }

  lemma ResumedCarries(opts: Options, s: State)
    requires Inv(s) && s.ws.Some? && s.ws.value.link == W.Connected
    ensures var t := Resumed(opts, s); t.readyState == OPEN ==> !LeaksNow(t)
  {
    var s1 := s.(ws := Some(W.Resume(opts, s.ws.value)));
    assert Base(s1) && PollingOpen(s1);
    FlushKeeps(opts, s1);
  }

  lemma ResumedOpen(opts: Options, s: State)
    requires Inv(s) && s.ws.Some?
    ensures Resumed(opts, s).readyState == OPEN ==> s.readyState == OPEN
  {
    ResumedEnds(opts, s);
  }

  lemma DispatchLost(opts: Options, s: State, frame: RawData)
    requires s.readyState == OPEN ==> s.attached
    ensures Dispatch(opts, s, frame).out.lost == s.out.lost <==>
            !(s.readyState == OPEN && Parser.DecodePacket(frame).kind == Ping && LeaksNow(s))
    ensures s.out.lost <= Dispatch(opts, s, frame).out.lost
  {
    if IsMessageText(frame) {
      MessageStays(opts, s, frame);
    } else {
      OnPacketLost(opts, s, Parser.DecodePacket(frame));
    }
  }

  /** A frame on a socket that Bun is closing: the backlog that it lets go, or the answer to a ping. */
  predicate FrameLeaks(opts: Options, s: State, frame: RawData) {
    && s.readyState != CLOSED && s.ws.Some?
    && s.ws.value.link != W.Connected && s.ws.value.link != W.Disconnected
    && (|| (W.Resumes(opts, s.ws.value) && s.out.buffer != [])
        || (s.readyState == OPEN && W.Resume(opts, s.ws.value).writable && Parser.DecodePacket(frame).kind == Ping))
  }

  lemma FrameCarried(opts: Options, s: State, frame: RawData)
    requires Inv(s) && s.ws.Some? && s.ws.value.link == W.Connected
    ensures FrameArrives(opts, s, frame).out.lost == s.out.lost
  {
    ResumedKeeps(opts, s);
    ResumedLost(opts, s);
    ResumedCarries(opts, s);
    DispatchLost(opts, Resumed(opts, s), frame);
  }

  lemma FrameLost(opts: Options, s: State, frame: RawData)
    requires Inv(s)
    ensures FrameArrives(opts, s, frame).out.lost != s.out.lost <==> FrameLeaks(opts, s, frame)
  {
    if s.ws.Some? && s.ws.value.link == W.Connected {
      FrameCarried(opts, s, frame);
    } else if s.ws.Some? && s.ws.value.link != W.Disconnected {
      ResumedKeeps(opts, s);
      ResumedLost(opts, s);
      ResumedOpen(opts, s);
      DispatchLost(opts, Resumed(opts, s), frame);
      if s.readyState == OPEN {
        ResumedLeaks(opts, s);
      }
    }
  }

  lemma TakeOverLost(opts: Options, s: State, w: W.State)
    requires s.readyState != CLOSED
    ensures TakeOver(opts, s, w).out.lost == s.out.lost + (if Leaks(w) then s.out.buffer else [])
  {
    FlushLost(opts, Rebound(s, w));
  }

  lemma CandidatePacketLost(opts: Options, s: State, p: Packet)
    requires s.probe.transport.Some?
    ensures CandidatePacket(opts, s, p).out.lost ==
            (if p.kind == Upgrade && s.readyState != CLOSED && Leaks(s.probe.transport.value)
             then s.out.lost + s.out.buffer else s.out.lost)
  {
    if p.kind == Upgrade && s.readyState != CLOSED {
      TakeOverLost(opts, s, s.probe.transport.value);
      assert s.out.lost + [] == s.out.lost;
    }
  }

  /** A candidate whose socket Bun is closing takes over, and the backlog goes to it. */
  predicate TakeOverLeaks(opts: Options, s: State, frame: RawData) {
    && s.readyState != CLOSED && TakesOver(opts, s, frame)
    && s.probe.transport.value.link != W.Connected && s.out.buffer != []
  }

  lemma CandidateFrameLost(opts: Options, s: State, frame: RawData)
    ensures CandidateFrame(opts, s, frame).out.lost != s.out.lost <==> TakeOverLeaks(opts, s, frame)
  {
    if s.probe.transport.Some? && s.probe.transport.value.link != W.Disconnected {
      var w := W.Resume(opts, s.probe.transport.value);
      CandidatePacketLost(opts, Probing(s, w), Parser.DecodePacket(frame));
    }
  }

  lemma IntervalLost(opts: Options, s: State)
    ensures Apply(opts, s, PingTimer).out.lost != s.out.lost <==> H.IntervalDue(s.heart) && Accepting(s) && LeaksNow(s)
  {
    PingOrPongLost(opts, s.(heart := H.FireInterval(s.heart)), Ping);
  }

  lemma StrayLost(opts: Options, s: State)
    ensures Apply(opts, s, StrayPingTimer).out.lost != s.out.lost <==>
            H.StrayDue(s.heart) && Accepting(s) && LeaksNow(s)
  {
    PingOrPongLost(opts, s.(heart := H.FireStray(s.heart)), Ping);
  }

  // ----- every step -----

  /** The step hands packets to a Bun socket that is not open. */
  predicate Loses(opts: Options, s: State, step: Step) {
    match step
    case DoWrite(_) => Accepting(s) && LeaksNow(s)
    case DoBroadcast(_) => Accepting(s) && LeaksNow(s)
    case PingTimer => H.IntervalDue(s.heart) && Accepting(s) && LeaksNow(s)
    case StrayPingTimer => H.StrayDue(s.heart) && Accepting(s) && LeaksNow(s)
    case FrameIn(frame) => FrameLeaks(opts, s, frame)
    case ProbeFrameIn(frame) => TakeOverLeaks(opts, s, frame)
    case _ => false
  }

  lemma OtherStepsLose(opts: Options, s: State, step: Step)
    requires IsQuiet(step) || step.DoClose? || step.WsClose? || step.PollTimeout? || step.PollAbort?
             || step.PingTimeoutTimer?
    ensures Apply(opts, s, step).out.lost == s.out.lost
  {}

  lemma SendStepLost(opts: Options, s: State, step: Step)
    requires step.DoWrite? || step.DoBroadcast? || step.PingTimer? || step.StrayPingTimer?
    ensures Apply(opts, s, step).out.lost != s.out.lost <==> Loses(opts, s, step)
  {
    match step
    case DoWrite(data) => WriteLost(opts, s, data);
    case DoBroadcast(data) => WriteLost(opts, s, data);
    case PingTimer => IntervalLost(opts, s);
    case StrayPingTimer => StrayLost(opts, s);
  }

  lemma InputStepLost(opts: Options, s: State, step: Step)
    requires Inv(s) && (step.PollIn? || step.PostIn? || step.FrameIn? || step.ProbeFrameIn?)
    ensures Apply(opts, s, step).out.lost != s.out.lost <==> Loses(opts, s, step)
  {
    match step
    case PollIn => PollLost(opts, s);
    case PostIn(ps) => PostLost(opts, s, ps);
    case FrameIn(frame) => FrameLost(opts, s, frame);
    case ProbeFrameIn(frame) => CandidateFrameLost(opts, s, frame);
  }

  lemma StepLost(opts: Options, s: State, step: Step)
    requires Inv(s)
    ensures Apply(opts, s, step).out.lost != s.out.lost <==> Loses(opts, s, step)
  {
    if step.DoWrite? || step.DoBroadcast? || step.PingTimer? || step.StrayPingTimer? {
      SendStepLost(opts, s, step);
    } else if step.PollIn? || step.PostIn? || step.FrameIn? || step.ProbeFrameIn? {
      InputStepLost(opts, s, step);
    } else {
      OtherStepsLose(opts, s, step);
    }
  }

  /** In every run a step loses packets exactly when it hands some to a Bun socket that was not open before it. */
  lemma LossIsDeadSocket(opts: Options, b: Birth, steps: seq<Step>, step: Step)
    ensures var s := Life(opts, b, steps);
            Apply(opts, s, step).out.lost != s.out.lost <==> Loses(opts, s, step)
  {
    LifeInv(opts, b, steps);
    StepLost(opts, Life(opts, b, steps), step);
  }

  /** The socket that the packets of a step go out on is open: that of the candidate, or of the bound transport. */
  predicate Carries(s: State, step: Step) {
    if step.ProbeFrameIn? then s.probe.transport.Some? && s.probe.transport.value.link == W.Connected
    else s.ws.None? || s.ws.value.link == W.Connected
  }

  lemma CarriedIsNotLost(opts: Options, s: State, step: Step)
    requires Inv(s) && Carries(s, step)
    ensures !Loses(opts, s, step) && s.out.lost == []
  {}

  // ----- closing with a backlog -----

  lemma {:induction false} ForcedReason(es: seq<Event>)
    requires Closings(es) <= 1
    ensures ForciblyClosed(es) <==> ReasonOf(es) == Some(ForcedClose)
  {
    if es != [] {
      ForcedReason(es[..|es| - 1]);
      NoReasonYet(es[..|es| - 1]);
    }
  }

  /** A closing session that drains onto a socket that is not open loses its backlog. */
  lemma DrainsOnto(opts: Options, s: State, step: Step)
    requires Inv(s) && s.readyState == CLOSING && Drains(opts, s, step)
    ensures Loses(opts, s, step) <==> !Carries(s, step)
  {}

  lemma CloseDelivers(opts: Options, s: State, step: Step)
    requires Inv(s) && s.readyState == CLOSING && Explained(opts, s, step, Apply(opts, s, step))
    requires ForciblyClosed(Apply(opts, s, step).log.events)
    ensures Delivered(Apply(opts, s, step)) == s.out.accepted <==> Carries(s, step)
  {
    var t := Apply(opts, s, step);
    StepKeeps(opts, s, step);
    ForcedReason(t.log.events);
    DrainsOnto(opts, s, step);
    StepLost(opts, s, step);
    ForcedCloseSentAll(t);
    if Carries(s, step) {
      CarriedIsNotLost(opts, s, step);
      assert Delivered(t) + [] == Delivered(t);
    } else {
      assert t.out.lost != [];
      assert |Delivered(t)| < |t.out.accepted|;
    }
  }

  /**
   * A graceful close that completes has put everything accepted on the wire exactly when
   * the socket it goes out on was open before the step, the takeover of an upgrade included.
   */
  lemma CloseDeliversBacklog(opts: Options, b: Birth, steps: seq<Step>, step: Step)
    requires var s := Life(opts, b, steps);
             s.readyState == CLOSING && ForciblyClosed(Apply(opts, s, step).log.events)
    ensures var s := Life(opts, b, steps);
            Delivered(Apply(opts, s, step)) == s.out.accepted <==> Carries(s, step)
  {
    LifeInv(opts, b, steps);
    CloseReasonTells(opts, b, steps, step);
    CloseDelivers(opts, Life(opts, b, steps), step);
  }

  // ----- an input that loses packets -----

  lemma BornWritable(opts: Options, b: Birth)
    requires b.webSocket
    ensures var s := Born(opts, b);
            && s.readyState == OPEN && s.attached && s.ws.Some? && s.ws.value.writable && s.ws.value.link == W.Connected
            && s.out.buffer == [] && s.out.lost == [] && s.meter.messagesSent == 0 && !s.meter.packetCreate
  {
    var s := Fresh(opts, b.webSocket, b.room, b.now).(readyState := OPEN);
    SendPacketIsFlush(opts, s, OpenPacket(b));
    assert [] + [OpenPacket(b)] == [OpenPacket(b)];
  }

  lemma CloseFrame(opts: Options, s: State)
    requires s.ws.Some? && s.ws.value.writable && s.ws.value.link == W.Connected
    ensures Apply(opts, s, FrameIn(Text("1"))) == s.(ws := Some(W.DoClose(s.ws.value)))
  {
    assert Parser.DecodePacket(Text("1")) == Packet(Close, None);
  }

  lemma WriteOnDeadSocket(opts: Options, s: State, data: RawData)
    requires s.readyState == OPEN && s.out.buffer == [] && !s.out.closeOnDrain
    requires s.ws.Some? && s.ws.value.writable && s.ws.value.link == W.Disconnecting
    ensures var t := Apply(opts, s, DoWrite(data));
            && t.readyState == OPEN && t.out.lost == s.out.lost + [Packet(Message, Some(data))]
            && t.meter.messagesSent == s.meter.messagesSent + 1
  {
    var p := Packet(Message, Some(data));
    assert Apply(opts, s, DoWrite(data)) == SendPacket(opts, s, p);
    SendPacketIsFlush(opts, s, p);
    assert s.out.buffer + [p] == [p];
    FlushLost(opts, Pushed(opts, s, p));
  }

  /**
   * The close packet on a WebSocket only asks Bun to close the socket. Until Bun reports
   * that it has, the session stays open, and what is written to it counts as sent and is lost.
   */
  lemma LossExample(opts: Options, b: Birth, data: RawData)
    requires b.webSocket
    ensures var s := Life(opts, b, [FrameIn(Text("1")), DoWrite(data)]);
            s.readyState == OPEN && s.out.lost == [Packet(Message, Some(data))] && s.meter.messagesSent == 1
  {
    var s0 := Born(opts, b);
    var s1 := Apply(opts, s0, FrameIn(Text("1")));
    BornOpens(opts, b);
    BornWritable(opts, b);
    CloseFrame(opts, s0);
    WriteOnDeadSocket(opts, s1, data);
    var steps := [FrameIn(Text("1")), DoWrite(data)];
    assert steps[1..] == [DoWrite(data)] && steps[1..][1..] == [];
    assert Run(opts, s0, steps) == Run(opts, s1, steps[1..]);
    assert Run(opts, s1, steps[1..]) == Run(opts, Apply(opts, s1, DoWrite(data)), []);
  }
}
