/** The heartbeat of a session: a deadline that no run can pass. */
module SessionHeart {
  import opened Packets
  import opened Transport
  import opened Session
  import opened SessionInvariants
  import opened SessionSteps
  import Parser
  import H = Heartbeat
  import P = PollingTransport
  import W = WebSocketTransport

  /** A session that is not closed has an armed timer, and none is late. */
  predicate Beating(opts: Options, s: State) {
    s.readyState != CLOSED ==> H.Alive(opts, s.heart)
  }

  /** Number of pongs accepted. */
  function Beats(es: seq<Event>): nat {
    if es == [] then 0 else Beats(es[..|es| - 1]) + (if es[|es| - 1] == HeartbeatSeen then 1 else 0)
  }

  lemma BeatsAppend(es: seq<Event>, e: Event)
    ensures Beats(es + [e]) == Beats(es) + (if e == HeartbeatSeen then 1 else 0)
  {
    assert (es + [e])[..|es|] == es;
  }

  lemma {:induction false} BeatsGrow(es: seq<Event>, fs: seq<Event>)
    requires es <= fs
    ensures Beats(es) <= Beats(fs)
  {
    if es != fs {
      BeatsGrow(es, fs[..|fs| - 1]);
    }
  }

  // ----- input -----

  /** What a session reports because of something its client sent. */
  predicate IsInput(e: Event) {
    e.Data? || e.RateLimited? || e.HeartbeatSeen?
  }

  function Heard(es: seq<Event>): seq<Event> {
    if es == [] then [] else Heard(es[..|es| - 1]) + (if IsInput(es[|es| - 1]) then [es[|es| - 1]] else [])
  }

  /** The packets that reached the session. */
  function Seen(ts: seq<Trace>): seq<Packet> {
    if ts == [] then []
    else
      var last := ts[|ts| - 1];
      Seen(ts[..|ts| - 1]) + (if last.PacketSeen? then [last.packet] else [])
  }

  lemma HeardAppend(es: seq<Event>, e: Event)
    ensures Heard(es + [e]) == Heard(es) + (if IsInput(e) then [e] else [])
  {
    assert (es + [e])[..|es|] == es;
  }

  lemma SeenAppend(ts: seq<Trace>, t: Trace)
    ensures Seen(ts + [t]) == Seen(ts) + (if t.PacketSeen? then [t.packet] else [])
  {
    assert (ts + [t])[..|ts|] == ts;
  }

  /** Nothing from the client reached the session. */
  predicate Deaf(s: State, t: State) {
    Heard(t.log.events) == Heard(s.log.events) && Seen(t.log.trace) == Seen(s.log.trace)
  }

  lemma NoteDeaf(s: State, t: Trace)
    requires !t.PacketSeen?
    ensures Deaf(s, Note(s, t))
  {
    SeenAppend(s.log.trace, t);
  }

  lemma EmitDeaf(s: State, e: Event)
    requires !IsInput(e)
    ensures Deaf(s, Emit(s, e))
  {
    HeardAppend(s.log.events, e);
  }

  // ----- what leaves the heartbeat alone -----

  /** Neither of the timers that the session knows of is armed. */
  predicate Stopped(h: H.State) {
    h.interval == H.Idle && (h.timeout == None || h.timeout == Some(H.Idle))
  }

  /** The heartbeat is left alone, or stopped by closing. */
  predicate HeartKept(s: State, t: State) {
    if s.readyState != CLOSED && t.readyState == CLOSED then
      Stopped(t.heart) && t.heart.lastPong == s.heart.lastPong && t.heart.now == s.heart.now
    else t.heart == s.heart && (s.readyState == CLOSED ==> t.readyState == CLOSED)
  }

  /** Neither the heartbeat nor input is involved. */
  predicate Untouched(s: State, t: State) {
    HeartKept(s, t) && Deaf(s, t)
  }

  lemma CloseTransportLog(s: State)
    ensures CloseTransport(s).log == s.log && CloseTransport(s).heart == s.heart
    ensures CloseTransport(s).readyState == s.readyState
  {}

  lemma OnCloseUntouched(s: State, reason: CloseReason)
    ensures Untouched(s, OnClose(s, reason))
  {
    var s1 := s.(readyState := CLOSED, heart := H.Cancel(s.heart));
    CloseTransportLog(s1);
    EmitDeaf(CloseTransport(s1), Closed(reason));
  }

  lemma FinishCloseUntouched(s: State)
    ensures Untouched(s, FinishClose(s))
  {
    CloseTransportLog(s);
    OnCloseUntouched(CloseTransport(s), ForcedClose);
  }

  lemma SendBufferUntouched(opts: Options, s: State)
    ensures Deaf(s, SendBuffer(opts, s))
    ensures SendBuffer(opts, s).heart == s.heart && SendBuffer(opts, s).readyState == s.readyState
  {
    var s1 := Note(s, Flushed(s.out.buffer)).(out := s.out.(buffer := []));
    NoteDeaf(s, Flushed(s.out.buffer));
    NoteDeaf(TransportSend(opts, s1, s.out.buffer), Drained);
  }

  lemma FlushUntouched(opts: Options, s: State)
    ensures Untouched(s, Flush(opts, s))
  {
    SendBufferUntouched(opts, s);
    var s2 := SendBuffer(opts, s);
    FinishCloseUntouched(s2.(out := s2.out.(closeOnDrain := false)));
  }

  lemma SendUntouched(opts: Options, s: State, p: Packet)
    ensures Untouched(s, SendPacket(opts, s, p))
    ensures s.ws.Some? ==> Untouched(s, SendRaw(opts, s, p))
  {
    SendPacketIsFlush(opts, s, p);
    SeenAppend(s.log.trace, PacketCreated(p));
    FlushUntouched(opts, Pushed(opts, s, p));
  }

  lemma WriteUntouched(opts: Options, s: State, data: RawData)
    ensures Untouched(s, Write(opts, s, data))
    ensures Untouched(s, Broadcast(opts, s, data))
  {
    SendUntouched(opts, s, Packet(Message, Some(data)));
  }

  lemma SendPingOrPongUntouched(opts: Options, s: State, kind: PacketType)
    ensures Untouched(s, SendPingOrPong(opts, s, kind))
  {
    SendUntouched(opts, s, Packet(kind, None));
  }

  lemma FailedUntouched(s: State)
    ensures Untouched(s, TransportFailed(s)) && Untouched(s, TransportClosed(s))
  {
    OnCloseUntouched(s, TransportError);
    OnCloseUntouched(s, TransportClose);
  }

  // ----- how a step treats the heartbeat -----

  /** The heartbeat goes on, only an accepted pong moves its origin, and time does not go back. */
  predicate Sustained(opts: Options, s: State, t: State) {
    && (Beating(opts, s) ==> Beating(opts, t))
    && Beats(s.log.events) <= Beats(t.log.events)
    && (Beats(s.log.events) == Beats(t.log.events) ==> t.heart.lastPong == s.heart.lastPong)
    && s.heart.now <= t.heart.now
  }

  lemma SustainedTrans(opts: Options, s: State, t: State, u: State)
    requires Sustained(opts, s, t) && Sustained(opts, t, u)
    ensures Sustained(opts, s, u)
  {}

  lemma UntouchedSustained(opts: Options, s: State, t: State)
    requires HeartKept(s, t) && s.log.events <= t.log.events
    ensures Sustained(opts, s, t)
  {
    BeatsGrow(s.log.events, t.log.events);
  }

  lemma PongSustained(opts: Options, s: State, p: Packet)
    requires s.readyState == OPEN && p.kind == Pong
    ensures Sustained(opts, s, OnPacket(opts, s, p))
  {
    BeatsAppend(s.log.events, HeartbeatSeen);
    var h, h' := s.heart, H.PongAccepted(opts, s.heart);
    if H.Alive(opts, h) {
      forall d | d in h'.strays
        ensures h'.now <= d <= h'.lastPong + opts.pingInterval
      {
        assert d in h.strays || h.interval == H.Armed(d);
      }
    }
  }

  /** Every packet but a pong. */
  lemma OnPacketHeartKept(opts: Options, s: State, p: Packet)
    requires p.kind != Pong
    ensures HeartKept(s, OnPacket(opts, s, p))
  {
    var s1 := Note(s, PacketSeen(p));
    if s.readyState == OPEN {
      match p.kind
      case Ping => SendPingOrPongUntouched(opts, s1, Pong);
      case Message => OnMessageHeartKept(opts, s1, p.data);
      case _ => OnCloseUntouched(s1, ParseError);
    }
  }

  lemma OnMessageHeartKept(opts: Options, s: State, data: Option<RawData>)
    ensures HeartKept(s, OnMessage(opts, s, data))
  {}

  lemma OnPacketSustained(opts: Options, s: State, p: Packet)
    requires Inv(s)
    ensures Sustained(opts, s, OnPacket(opts, s, p))
  {
    OnPacketKeeps(opts, s, p);
    if p.kind != Pong {
      OnPacketHeartKept(opts, s, p);
      UntouchedSustained(opts, s, OnPacket(opts, s, p));
    } else if s.readyState == OPEN {
      PongSustained(opts, s, p);
    }
  }

  lemma SendPingSustained(opts: Options, s: State, h: H.State)
    requires Inv(s) && h.lastPong == s.heart.lastPong && h.now == s.heart.now
    requires s.readyState != CLOSED && H.Alive(opts, s.heart) ==>
               || (h == H.FireInterval(s.heart) && H.IntervalDue(s.heart))
               || (h == H.FireStray(s.heart) && H.StrayDue(s.heart))
    ensures Sustained(opts, s, SendPing(opts, s.(heart := h)))
  {
    SendPingKeeps(opts, s, h);
    var s1 := s.(heart := h);
    var s2 := SendPingOrPong(opts, s1, Ping);
    SendPingOrPongUntouched(opts, s1, Ping);
    BeatsGrow(s.log.events, SendPing(opts, s1).log.events);
    assert s2.heart.lastPong == s.heart.lastPong;
    if s2.readyState != CLOSED && H.Alive(opts, s.heart) {
      assert s2.heart == h && s.readyState != CLOSED;
      assert H.Alive(opts, H.ResetPingTimeout(opts, h));
    }
  }

  lemma PostedPacketSustained(opts: Options, s: State, p: Packet)
    requires Inv(s)
    ensures Sustained(opts, s, PostedPacket(opts, s, p))
  {
    PostedPacketKeeps(opts, s, p);
    if s.polling.Some? && p.kind == Close {
      var s1 := s.(polling := Some(P.DoClose(s.polling.value)));
      FailedUntouched(s1);
      UntouchedSustained(opts, s, PostedPacket(opts, s, p));
    } else {
      OnPacketSustained(opts, s, p);
    }
  }

  lemma {:induction false} PostArrivesSustained(opts: Options, s: State, ps: seq<Packet>)
    requires Inv(s)
    ensures Sustained(opts, s, PostArrives(opts, s, ps))
    decreases |ps|
  {
    if ps != [] {
      var s1 := PostedPacket(opts, s, ps[0]);
      PostedPacketKeeps(opts, s, ps[0]);
      PostedPacketSustained(opts, s, ps[0]);
      PostArrivesSustained(opts, s1, ps[1..]);
      SustainedTrans(opts, s, s1, PostArrives(opts, s, ps));
    }
  }

  lemma ResumedUntouched(opts: Options, s: State)
    requires s.ws.Some?
    ensures Untouched(s, Resumed(opts, s))
  {
    FlushUntouched(opts, s.(ws := Some(W.Resume(opts, s.ws.value))));
  }

  lemma DispatchSustained(opts: Options, s: State, frame: RawData)
    requires Inv(s)
    ensures Sustained(opts, s, Dispatch(opts, s, frame))
  {
    DispatchKeeps(opts, s, frame);
    if IsMessageText(frame) {
      UntouchedSustained(opts, s, Dispatch(opts, s, frame));
    } else {
      var p := Parser.DecodePacket(frame);
      if p.kind == Close {
        UntouchedSustained(opts, s, Dispatch(opts, s, frame));
      } else {
        OnPacketSustained(opts, s, p);
      }
    }
  }

  lemma FrameArrivesSustained(opts: Options, s: State, frame: RawData)
    requires Inv(s)
    ensures Sustained(opts, s, FrameArrives(opts, s, frame))
  {
    if s.ws.Some? && s.ws.value.link != W.Disconnected {
      ResumedKeeps(opts, s);
      ResumedUntouched(opts, s);
      UntouchedSustained(opts, s, Resumed(opts, s));
      DispatchSustained(opts, Resumed(opts, s), frame);
      SustainedTrans(opts, s, Resumed(opts, s), FrameArrives(opts, s, frame));
    }
  }

  lemma PollArrivesUntouched(opts: Options, s: State)
    ensures Untouched(s, PollArrives(opts, s))
  {
    FailedUntouched(s);
    if s.polling.Some? {
      FlushUntouched(opts, s.(polling := Some(P.Accept(s.polling.value))));
    }
  }

  lemma PollTimesOutUntouched(s: State, poll: nat)
    ensures Untouched(s, PollTimesOut(s, poll))
  {
    if s.polling.Some? {
      FailedUntouched(s.(polling := Some(P.Expire(s.polling.value, poll))));
    }
  }

  lemma PollAbortsUntouched(s: State, poll: nat)
    ensures Untouched(s, PollAborts(s, poll))
  {
    if s.polling.Some? {
      FailedUntouched(s.(polling := Some(P.Abort(s.polling.value, poll))));
    }
  }

  lemma TakeOverUntouched(opts: Options, s: State, w: W.State)
    ensures Untouched(s, TakeOver(opts, s, w))
  {
    HeardAppend(s.log.events, UpgradeDone);
    FlushUntouched(opts, Rebound(s, w));
  }

  lemma CandidatePacketUntouched(opts: Options, s: State, p: Packet)
    requires s.probe.transport.Some?
    ensures Untouched(s, CandidatePacket(opts, s, p))
  {
    if p == Packet(Ping, Some(Text("probe"))) {
      var s1 := SendNoop(opts, Probing(s, W.Send(opts, s.probe.transport.value, [PROBE_PONG])));
      assert s1.log == s.log && s1.heart == s.heart && s1.readyState == s.readyState;
      EmitDeaf(s1.(probe := StartNoopTimer(s1.probe)), UpgradeStarted);
    } else {
      TakeOverUntouched(opts, s, s.probe.transport.value);
    }
  }

  /** A probing transport never makes itself heard. */
  lemma CandidateFrameUntouched(opts: Options, s: State, frame: RawData)
    ensures Untouched(s, CandidateFrame(opts, s, frame))
  {
    if s.probe.transport.Some? {
      var s1 := Probing(s, W.Resume(opts, s.probe.transport.value));
      CandidatePacketUntouched(opts, s1, Parser.DecodePacket(frame));
    }
  }

  lemma PingTimesOutSustained(opts: Options, s: State)
    requires Inv(s)
    ensures Sustained(opts, s, PingTimesOut(s))
  {
    PingTimesOutKeeps(s);
    BeatsGrow(s.log.events, PingTimesOut(s).log.events);
  }

  lemma WaitSustained(opts: Options, s: State, t: int)
    ensures Sustained(opts, s, s.(heart := H.Advance(s.heart, t)))
  {}

  lemma IntervalFiresSustained(opts: Options, s: State)
    requires Inv(s)
    ensures Sustained(opts, s, Apply(opts, s, PingTimer))
  {
    if H.IntervalDue(s.heart) {
      SendPingSustained(opts, s, H.FireInterval(s.heart));
    }
  }

  lemma StrayFiresSustained(opts: Options, s: State)
    requires Inv(s)
    ensures Sustained(opts, s, Apply(opts, s, StrayPingTimer))
  {
    if H.StrayDue(s.heart) {
      SendPingSustained(opts, s, H.FireStray(s.heart));
    }
  }

  lemma CloseSessionUntouched(s: State)
    ensures Untouched(s, CloseSession(s))
  {
    FinishCloseUntouched(s.(readyState := CLOSING));
  }

  lemma OuterStepUntouched(opts: Options, s: State, step: Step)
    requires IsOuterStep(step) && !step.PostIn?
    ensures Untouched(s, Apply(opts, s, step))
  {
    match step
    case DoWrite(data) => WriteUntouched(opts, s, data);
    case DoBroadcast(data) => WriteUntouched(opts, s, data);
    case DoClose => CloseSessionUntouched(s);
    case EnablePacketCreate =>
    case PollIn => PollArrivesUntouched(opts, s);
    case PollTimeout(poll) => PollTimesOutUntouched(s, poll);
    case PollAbort(poll) => PollAbortsUntouched(s, poll);
  }

  lemma OuterStepSustained(opts: Options, s: State, step: Step)
    requires Inv(s) && IsOuterStep(step)
    ensures Sustained(opts, s, Apply(opts, s, step))
  {
    if step.PostIn? {
      PostArrivesSustained(opts, s, step.packets);
    } else {
      StepKeeps(opts, s, step);
      OuterStepUntouched(opts, s, step);
      UntouchedSustained(opts, s, Apply(opts, s, step));
    }
  }

  lemma TimerStepSustained(opts: Options, s: State, step: Step)
    requires Inv(s) && IsTimerStep(step)
    ensures Sustained(opts, s, Apply(opts, s, step))
  {
    match step
    case PingTimer => IntervalFiresSustained(opts, s);
    case StrayPingTimer => StrayFiresSustained(opts, s);
    case PingTimeoutTimer => PingTimesOutSustained(opts, s);
    case LimiterTimer => UntouchedSustained(opts, s, LimiterTick(s));
    case Wait(t) => WaitSustained(opts, s, t);
  }

  lemma WebSocketStepSustained(opts: Options, s: State, step: Step)
    requires Inv(s) && !IsOuterStep(step) && !IsTimerStep(step)
    ensures Sustained(opts, s, Apply(opts, s, step))
  {
    if step.FrameIn? {
      FrameArrivesSustained(opts, s, step.frame);
    } else {
      StepKeeps(opts, s, step);
      ProbeStepUntouched(opts, s, step);
      UntouchedSustained(opts, s, Apply(opts, s, step));
    }
  }

  lemma WebSocketClosesUntouched(s: State)
    ensures Untouched(s, WebSocketCloses(s))
  {
    if s.ws.Some? {
      FailedUntouched(s.(ws := Some(W.CloseEvent(s.ws.value))));
    }
  }

  lemma ProbeStepUntouched(opts: Options, s: State, step: Step)
    requires !IsOuterStep(step) && !IsTimerStep(step) && !step.FrameIn?
    ensures Untouched(s, Apply(opts, s, step))
  {
    match step
    case WsClose => WebSocketClosesUntouched(s);
    case ProbeFrameIn(frame) => CandidateFrameUntouched(opts, s, frame);
    case _ =>
  }

  lemma StepSustained(opts: Options, s: State, step: Step)
    requires Inv(s)
    ensures Sustained(opts, s, Apply(opts, s, step))
  {
    if IsOuterStep(step) {
      OuterStepSustained(opts, s, step);
    } else if IsTimerStep(step) {
      TimerStepSustained(opts, s, step);
    } else {
      WebSocketStepSustained(opts, s, step);
    }
  }

  lemma {:induction false} RunSustained(opts: Options, s: State, steps: seq<Step>)
    requires Inv(s)
    ensures Sustained(opts, s, Run(opts, s, steps))
    decreases |steps|
  {
    if steps != [] {
      var s1 := Apply(opts, s, steps[0]);
      StepKeeps(opts, s, steps[0]);
      StepSustained(opts, s, steps[0]);
      RunSustained(opts, s1, steps[1..]);
      SustainedTrans(opts, s, s1, Run(opts, s, steps));
    }
  }

  // ----- a session that is not open hears nothing -----

  lemma SendPingDeaf(opts: Options, s: State, h: H.State)
    ensures Deaf(s, SendPing(opts, s.(heart := h)))
  {
    SendPingOrPongUntouched(opts, s.(heart := h), Ping);
  }

  lemma PingStepDeaf(opts: Options, s: State)
    ensures Deaf(s, IntervalFires(opts, s))
    ensures Deaf(s, StrayFires(opts, s))
  {
    SendPingDeaf(opts, s, H.FireInterval(s.heart));
    SendPingDeaf(opts, s, H.FireStray(s.heart));
  }

  lemma PostedPacketDeaf(opts: Options, s: State, p: Packet)
    requires s.readyState != OPEN
    ensures Deaf(s, PostedPacket(opts, s, p))
  {
    if s.polling.Some? {
      FailedUntouched(s.(polling := Some(P.DoClose(s.polling.value))));
    }
  }

  lemma {:induction false} PostArrivesDeaf(opts: Options, s: State, ps: seq<Packet>)
    requires s.readyState == CLOSING || s.readyState == CLOSED
    ensures Deaf(s, PostArrives(opts, s, ps))
    decreases |ps|
  {
    if ps != [] {
      PostedPacketDeaf(opts, s, ps[0]);
      PostedPacketStaysShut(opts, s, ps[0]);
      PostArrivesDeaf(opts, PostedPacket(opts, s, ps[0]), ps[1..]);
    }
  }

  lemma PostedPacketStaysShut(opts: Options, s: State, p: Packet)
    requires s.readyState == CLOSING || s.readyState == CLOSED
    ensures var r := PostedPacket(opts, s, p).readyState; r == CLOSING || r == CLOSED
  {}

  lemma FrameArrivesDeaf(opts: Options, s: State, frame: RawData)
    requires Inv(s) && (s.readyState == CLOSING || s.readyState == CLOSED)
    ensures Deaf(s, FrameArrives(opts, s, frame))
  {
    if s.ws.Some? {
      ResumedKeeps(opts, s);
      ResumedUntouched(opts, s);
      DispatchIgnored(opts, Resumed(opts, s), frame);
    }
  }

  lemma DispatchIgnored(opts: Options, s: State, frame: RawData)
    requires s.readyState != OPEN
    ensures Dispatch(opts, s, frame).log == s.log
  {}

  lemma TimerStepDeaf(opts: Options, s: State, step: Step)
    requires IsTimerStep(step)
    ensures Deaf(s, Apply(opts, s, step))
  {
    match step
    case PingTimer => PingStepDeaf(opts, s);
    case StrayPingTimer => PingStepDeaf(opts, s);
    case PingTimeoutTimer => OnCloseUntouched(s.(heart := H.FireTimeout(s.heart)), PingTimeout);
    case LimiterTimer =>
    case Wait(_) =>
  }

  /** Input reaches a session only while it is OPEN. */
  lemma StepDeaf(opts: Options, s: State, step: Step)
    requires Inv(s) && (s.readyState == CLOSING || s.readyState == CLOSED)
    ensures Deaf(s, Apply(opts, s, step))
  {
    if step.PostIn? {
      PostArrivesDeaf(opts, s, step.packets);
    } else if step.FrameIn? {
      FrameArrivesDeaf(opts, s, step.frame);
    } else if IsTimerStep(step) {
      TimerStepDeaf(opts, s, step);
    } else if IsOuterStep(step) {
      OuterStepUntouched(opts, s, step);
    } else {
      ProbeStepUntouched(opts, s, step);
    }
  }

  lemma {:induction false} RunDeaf(opts: Options, s: State, steps: seq<Step>)
    requires Inv(s) && (s.readyState == CLOSING || s.readyState == CLOSED)
    ensures Deaf(s, Run(opts, s, steps))
    decreases |steps|
  {
    if steps != [] {
      StepKeeps(opts, s, steps[0]);
      StepDeaf(opts, s, steps[0]);
      RunDeaf(opts, Apply(opts, s, steps[0]), steps[1..]);
    }
  }
}
