/** The traffic counters and the message budget of a session, against its history. */
module SessionAccounts {
  import opened Packets
  import opened Transport
  import opened Session
  import opened SessionInvariants
  import opened SessionSteps
  import opened SessionHeart
  import opened SessionRefinement
  import opened SessionTheorems
  import Parser
  import H = Heartbeat
  import L = RateLimiting
  import P = PollingTransport
  import W = WebSocketTransport

  // ----- what the history says -----

  function Messages(ps: seq<Packet>): nat {
    if ps == [] then 0 else Messages(ps[..|ps| - 1]) + (if ps[|ps| - 1].kind == Message then 1 else 0)
  }

  function MessageBytes(opts: Options, ps: seq<Packet>): nat {
    if ps == [] then 0
    else
      var last := ps[|ps| - 1];
      MessageBytes(opts, ps[..|ps| - 1]) + (if last.kind == Message then SizeOf(opts, last.data) else 0)
  }

  function Datas(es: seq<Event>): nat {
    if es == [] then 0 else Datas(es[..|es| - 1]) + (if es[|es| - 1].Data? then 1 else 0)
  }

  function DataBytes(opts: Options, es: seq<Event>): nat {
    if es == [] then 0
    else
      var last := es[|es| - 1];
      DataBytes(opts, es[..|es| - 1]) + (if last.Data? then SizeOf(opts, last.data) else 0)
  }

  /** Counters less history; the limiter with what was spent of it. */
  datatype Balance = Balance(sent: int, sentBytes: int, received: int, receivedBytes: int, budget: Option<L.State>)

  /** The limiter, had nothing been spent. */
  function Unspent(l: L.State, datas: nat): L.State {
    l.(remaining := l.remaining + datas)
  }

  function BalanceOf(opts: Options, m: Meter, accepted: seq<Packet>, heard: seq<Event>): Balance {
    Balance(
      m.messagesSent - Messages(accepted),
      m.bytesSent - MessageBytes(opts, accepted),
      m.messagesReceived - Datas(heard),
      m.bytesReceived - DataBytes(opts, heard),
      if m.limiter.Some? then Some(Unspent(m.limiter.value, Datas(heard))) else None)
  }

  predicate Even(opts: Options, s: State, t: State) {
    BalanceOf(opts, t.meter, t.out.accepted, Heard(t.log.events)) ==
    BalanceOf(opts, s.meter, s.out.accepted, Heard(s.log.events))
  }

  lemma MessagesAppend(opts: Options, ps: seq<Packet>, p: Packet)
    ensures Messages(ps + [p]) == Messages(ps) + (if p.kind == Message then 1 else 0)
    ensures MessageBytes(opts, ps + [p]) ==
            MessageBytes(opts, ps) + (if p.kind == Message then SizeOf(opts, p.data) else 0)
  {
    assert (ps + [p])[..|ps|] == ps;
  }

  lemma DatasAppend(opts: Options, es: seq<Event>, e: Event)
    ensures Datas(es + [e]) == Datas(es) + (if e.Data? then 1 else 0)
    ensures DataBytes(opts, es + [e]) == DataBytes(opts, es) + (if e.Data? then SizeOf(opts, e.data) else 0)
  {
    assert (es + [e])[..|es|] == es;
  }

  // ----- what is not on the books -----

  /** Nothing was accepted, sent or heard. */
  predicate Idle(s: State, t: State) {
    Deaf(s, t) && t.meter == s.meter && t.out.accepted == s.out.accepted
  }

  lemma IdleEven(opts: Options, s: State, t: State)
    requires Idle(s, t)
    ensures Even(opts, s, t)
  {}

  lemma CloseTransportIdle(s: State)
    ensures CloseTransport(s).meter == s.meter && CloseTransport(s).out == s.out
  {}

  lemma OnCloseIdle(s: State, reason: CloseReason)
    ensures Idle(s, OnClose(s, reason))
  {
    OnCloseUntouched(s, reason);
    CloseTransportIdle(s.(readyState := CLOSED, heart := H.Cancel(s.heart)));
  }

  lemma FinishCloseIdle(s: State)
    ensures Idle(s, FinishClose(s))
  {
    FinishCloseUntouched(s);
    CloseTransportIdle(s);
    OnCloseIdle(CloseTransport(s), ForcedClose);
  }

  lemma FlushIdle(opts: Options, s: State)
    ensures Idle(s, Flush(opts, s))
  {
    FlushUntouched(opts, s);
    var s1 := SendBuffer(opts, s);
    assert s1.meter == s.meter && s1.out.accepted == s.out.accepted;
    FinishCloseIdle(s1.(out := s1.out.(closeOnDrain := false)));
  }

  lemma FailedIdle(s: State)
    ensures Idle(s, TransportFailed(s)) && Idle(s, TransportClosed(s))
  {
    OnCloseIdle(s, TransportError);
    OnCloseIdle(s, TransportClose);
  }

  lemma PollArrivesIdle(opts: Options, s: State)
    ensures Idle(s, PollArrives(opts, s))
  {
    FailedIdle(s);
    if s.polling.Some? {
      FlushIdle(opts, s.(polling := Some(P.Accept(s.polling.value))));
    }
  }

  lemma PollTimesOutIdle(s: State, poll: nat)
    ensures Idle(s, PollTimesOut(s, poll))
  {
    if s.polling.Some? {
      FailedIdle(s.(polling := Some(P.Expire(s.polling.value, poll))));
    }
  }

  lemma PollAbortsIdle(s: State, poll: nat)
    ensures Idle(s, PollAborts(s, poll))
  {
    if s.polling.Some? {
      FailedIdle(s.(polling := Some(P.Abort(s.polling.value, poll))));
    }
  }

  lemma CloseSessionIdle(s: State)
    ensures Idle(s, CloseSession(s))
  {
    FinishCloseIdle(s.(readyState := CLOSING));
  }

  lemma WebSocketClosesIdle(s: State)
    ensures Idle(s, WebSocketCloses(s))
  {
    if s.ws.Some? {
      FailedIdle(s.(ws := Some(W.CloseEvent(s.ws.value))));
    }
  }

  predicate SameBooks(s: State, t: State) {
    t.meter == s.meter && t.out.accepted == s.out.accepted
  }

  lemma TakeOverBooks(opts: Options, s: State, w: W.State)
    ensures SameBooks(s, TakeOver(opts, s, w))
  {
    FlushIdle(opts, Rebound(s, w));
  }

  lemma CandidatePacketBooks(opts: Options, s: State, p: Packet)
    requires s.probe.transport.Some?
    ensures SameBooks(s, CandidatePacket(opts, s, p))
  {
    if p.kind == Upgrade {
      TakeOverBooks(opts, s, s.probe.transport.value);
    }
  }

  lemma CandidateFrameBooks(opts: Options, s: State, frame: RawData)
    ensures SameBooks(s, CandidateFrame(opts, s, frame))
  {
    if s.probe.transport.Some? {
      var w := W.Resume(opts, s.probe.transport.value);
      CandidatePacketBooks(opts, Probing(s, w), Parser.DecodePacket(frame));
    }
  }

  lemma CandidateFrameIdle(opts: Options, s: State, frame: RawData)
    ensures Idle(s, CandidateFrame(opts, s, frame))
  {
    CandidateFrameUntouched(opts, s, frame);
    CandidateFrameBooks(opts, s, frame);
  }

  lemma PingTimesOutIdle(s: State)
    ensures Idle(s, PingTimesOut(s))
  {
    OnCloseIdle(s.(heart := H.FireTimeout(s.heart)), PingTimeout);
  }

  // ----- what is -----

  lemma PushedEven(opts: Options, s: State, p: Packet)
    ensures Even(opts, s, Pushed(opts, s, p))
  {
    MessagesAppend(opts, s.out.accepted, p);
  }

  lemma SendPacketEven(opts: Options, s: State, p: Packet)
    ensures Even(opts, s, SendPacket(opts, s, p))
  {
    PushedEven(opts, s, p);
    FlushIdle(opts, Pushed(opts, s, p));
  }

  /** A message that is let through is on every account. */
  lemma MessageBooked(opts: Options, m: Meter, accepted: seq<Packet>, heard: seq<Event>, data: Option<RawData>)
    requires m.limiter.Some? ==> L.Allows(m.limiter.value)
    ensures BalanceOf(opts, Tallied(opts, Spent(m), data), accepted, heard + [Data(data)]) ==
            BalanceOf(opts, m, accepted, heard)
  {
    DatasAppend(opts, heard, Data(data));
  }

  lemma OtherHeard(opts: Options, m: Meter, accepted: seq<Packet>, heard: seq<Event>, e: Event)
    requires !e.Data?
    ensures BalanceOf(opts, m, accepted, heard + [e]) == BalanceOf(opts, m, accepted, heard)
  {
    DatasAppend(opts, heard, e);
  }

  lemma OnMessageEven(opts: Options, s: State, data: Option<RawData>)
    ensures Even(opts, s, OnMessage(opts, s, data))
  {
    var heard := Heard(s.log.events);
    if s.meter.limiter.Some? && !L.Allows(s.meter.limiter.value) {
      HeardAppend(s.log.events, RateLimited);
      OtherHeard(opts, s.meter, s.out.accepted, heard, RateLimited);
    } else {
      HeardAppend(s.log.events, Data(data));
      MessageBooked(opts, s.meter, s.out.accepted, heard, data);
    }
  }

  lemma PongEven(opts: Options, s: State)
    ensures Even(opts, s, Emit(s.(heart := H.PongAccepted(opts, s.heart)), HeartbeatSeen))
  {
    HeardAppend(s.log.events, HeartbeatSeen);
    OtherHeard(opts, s.meter, s.out.accepted, Heard(s.log.events), HeartbeatSeen);
  }

  lemma PlainOnPacketEven(opts: Options, s: State, p: Packet)
    ensures Even(opts, s, PlainOnPacket(opts, s, p))
  {
    if s.readyState == OPEN {
      var s1 := Note(s, PacketSeen(p));
      match p.kind
      case Pong => PongEven(opts, s1);
      case Ping => SendPacketEven(opts, s1, Packet(Pong, None));
      case Message => OnMessageEven(opts, s1, p.data);
      case _ => OnCloseIdle(s1, ParseError);
    }
  }

  lemma PlainPostedEven(opts: Options, s: State, p: Packet)
    ensures Even(opts, s, PlainPosted(opts, s, p))
  {
    if s.polling.Some? && p.kind == Close {
      FailedIdle(s.(polling := Some(P.DoClose(s.polling.value))));
    } else {
      PlainOnPacketEven(opts, s, p);
    }
  }

  lemma {:induction false} PlainPostEven(opts: Options, s: State, ps: seq<Packet>)
    ensures Even(opts, s, PlainPost(opts, s, ps))
    decreases |ps|
  {
    if ps != [] {
      PlainPostedEven(opts, s, ps[0]);
      PlainPostEven(opts, PlainPosted(opts, s, ps[0]), ps[1..]);
    }
  }

  lemma ResumedEven(opts: Options, s: State)
    requires s.ws.Some?
    ensures Even(opts, s, Resumed(opts, s))
  {
    FlushIdle(opts, s.(ws := Some(W.Resume(opts, s.ws.value))));
  }

  lemma PlainFrameEven(opts: Options, s: State, frame: RawData)
    ensures Even(opts, s, PlainFrame(opts, s, frame))
  {
    if s.ws.Some? {
      ResumedEven(opts, s);
      PlainOnPacketEven(opts, Resumed(opts, s), Parser.DecodePacket(frame));
    }
  }

  lemma PlainPingEven(opts: Options, s: State, h: H.State)
    ensures Even(opts, s, PlainPing(opts, s.(heart := h)))
  {
    SendPacketEven(opts, s.(heart := h), Packet(Ping, None));
  }

  lemma PlainIntervalEven(opts: Options, s: State)
    ensures Even(opts, s, PlainInterval(opts, s))
  {
    PlainPingEven(opts, s, H.FireInterval(s.heart));
  }

  lemma PlainStrayEven(opts: Options, s: State)
    ensures Even(opts, s, PlainStray(opts, s))
  {
    PlainPingEven(opts, s, H.FireStray(s.heart));
  }

  lemma ShortcutEven(opts: Options, s: State, step: Step)
    requires Inv(s) && HasShortcut(step)
    ensures Even(opts, s, Apply(opts, s, step))
  {
    StepIsPlain(opts, s, step);
    match step
    case DoWrite(data) => SendPacketEven(opts, s, Packet(Message, Some(data)));
    case PostIn(ps) => PlainPostEven(opts, s, ps);
    case FrameIn(frame) => PlainFrameEven(opts, s, frame);
    case PingTimer => PlainIntervalEven(opts, s);
    case StrayPingTimer => PlainStrayEven(opts, s);
  }

  /** The other steps, apart from broadcasts and the limiter's tick. */
  predicate IsIdle(step: Step) {
    !HasShortcut(step) && !step.DoBroadcast? && !step.LimiterTimer? && !step.EnablePacketCreate?
  }

  lemma IdleStep(opts: Options, s: State, step: Step)
    requires IsIdle(step)
    ensures Idle(s, Apply(opts, s, step))
  {
    match step
    case DoClose => CloseSessionIdle(s);
    case PollIn => PollArrivesIdle(opts, s);
    case PollTimeout(poll) => PollTimesOutIdle(s, poll);
    case PollAbort(poll) => PollAbortsIdle(s, poll);
    case WsClose => WebSocketClosesIdle(s);
    case ProbeFrameIn(frame) => CandidateFrameIdle(opts, s, frame);
    case PingTimeoutTimer => PingTimesOutIdle(s);
    case _ =>
  }

  /** A broadcast that is not sent is on the counters only. */
  function DroppedBy(s: State, step: Step): nat {
    if step.DoBroadcast? && !BroadcastReaches(s) then 1 else 0
  }

  function DroppedBytesBy(opts: Options, s: State, step: Step): nat {
    if step.DoBroadcast? && !BroadcastReaches(s) then SizeOf(opts, Some(step.data)) else 0
  }

  /** What a step does to the balance. */
  predicate Booked(opts: Options, s: State, t: State, dropped: nat, droppedBytes: nat, ticked: bool) {
    var b := BalanceOf(opts, s.meter, s.out.accepted, Heard(s.log.events));
    var b' := BalanceOf(opts, t.meter, t.out.accepted, Heard(t.log.events));
    && b' == b.(sent := b.sent + dropped, sentBytes := b.sentBytes + droppedBytes, budget := b'.budget)
    && (!ticked ==> b'.budget == b.budget)
  }

  lemma ReachedEven(opts: Options, s: State, data: RawData)
    requires Inv(s) && BroadcastReaches(s)
    ensures Even(opts, s, Broadcast(opts, s, data))
  {
    BroadcastReached(opts, s, data);
    WriteIsBuffered(opts, s, data);
    SendPacketEven(opts, s, Packet(Message, Some(data)));
  }

  lemma BroadcastBooked(opts: Options, s: State, data: RawData)
    requires Inv(s)
    ensures Booked(opts, s, Broadcast(opts, s, data), DroppedBy(s, DoBroadcast(data)),
                   DroppedBytesBy(opts, s, DoBroadcast(data)), false)
  {
    if BroadcastReaches(s) {
      ReachedEven(opts, s, data);
    } else {
      BroadcastDropped(opts, s, data);
    }
  }

  lemma LimiterTickBooked(opts: Options, s: State)
    ensures Booked(opts, s, LimiterTick(s), 0, 0, true)
  {}

  lemma EnableBooked(opts: Options, s: State)
    ensures Booked(opts, s, Apply(opts, s, EnablePacketCreate), 0, 0, false)
  {}

  lemma EvenBooked(opts: Options, s: State, t: State)
    requires Even(opts, s, t)
    ensures Booked(opts, s, t, 0, 0, false)
  {}

  lemma StepBooked(opts: Options, s: State, step: Step)
    requires Inv(s)
    ensures Booked(opts, s, Apply(opts, s, step), DroppedBy(s, step), DroppedBytesBy(opts, s, step), step.LimiterTimer?)
  {
    if HasShortcut(step) {
      ShortcutEven(opts, s, step);
      EvenBooked(opts, s, Apply(opts, s, step));
    } else if step.DoBroadcast? {
      BroadcastBooked(opts, s, step.data);
    } else if step.LimiterTimer? {
      LimiterTickBooked(opts, s);
    } else if step.EnablePacketCreate? {
      EnableBooked(opts, s);
    } else {
      IdleStep(opts, s, step);
      IdleEven(opts, s, Apply(opts, s, step));
      EvenBooked(opts, s, Apply(opts, s, step));
    }
  }

  function Dropped(opts: Options, s: State, steps: seq<Step>): nat
    decreases |steps|
  {
    if steps == [] then 0 else DroppedBy(s, steps[0]) + Dropped(opts, Apply(opts, s, steps[0]), steps[1..])
  }

  function DroppedBytes(opts: Options, s: State, steps: seq<Step>): nat
    decreases |steps|
  {
    if steps == [] then 0
    else DroppedBytesBy(opts, s, steps[0]) + DroppedBytes(opts, Apply(opts, s, steps[0]), steps[1..])
  }

  predicate Ticks(steps: seq<Step>) {
    steps != [] && (steps[0].LimiterTimer? || Ticks(steps[1..]))
  }

  lemma BookedTrans(opts: Options, s: State, t: State, u: State, d: nat, e: nat, b: bool, d': nat, e': nat, b': bool)
    requires Booked(opts, s, t, d, e, b) && Booked(opts, t, u, d', e', b')
    ensures Booked(opts, s, u, d + d', e + e', b || b')
  {}

  lemma {:induction false} RunBooked(opts: Options, s: State, steps: seq<Step>)
    requires Inv(s)
    ensures Booked(opts, s, Run(opts, s, steps), Dropped(opts, s, steps), DroppedBytes(opts, s, steps), Ticks(steps))
    decreases |steps|
  {
    if steps != [] {
      StepKeeps(opts, s, steps[0]);
      StepBooked(opts, s, steps[0]);
      RunBooked(opts, Apply(opts, s, steps[0]), steps[1..]);
      FirstBooked(opts, s, Apply(opts, s, steps[0]), Run(opts, s, steps), steps);
    }
  }

  lemma FirstBooked(opts: Options, s: State, s1: State, t: State, steps: seq<Step>)
    requires steps != [] && s1 == Apply(opts, s, steps[0])
    requires Booked(opts, s, s1, DroppedBy(s, steps[0]), DroppedBytesBy(opts, s, steps[0]), steps[0].LimiterTimer?)
    requires Booked(opts, s1, t, Dropped(opts, s1, steps[1..]), DroppedBytes(opts, s1, steps[1..]), Ticks(steps[1..]))
    ensures Booked(opts, s, t, Dropped(opts, s, steps), DroppedBytes(opts, s, steps), Ticks(steps))
  {
    BookedTrans(opts, s, s1, t, DroppedBy(s, steps[0]), DroppedBytesBy(opts, s, steps[0]), steps[0].LimiterTimer?,
                Dropped(opts, s1, steps[1..]), DroppedBytes(opts, s1, steps[1..]), Ticks(steps[1..]));
  }

  // ----- the theorems -----

  lemma {:induction false} HeardDatas(opts: Options, es: seq<Event>)
    ensures Datas(Heard(es)) == Datas(es) && DataBytes(opts, Heard(es)) == DataBytes(opts, es)
  {
    if es != [] {
      var before, last := es[..|es| - 1], es[|es| - 1];
      HeardDatas(opts, before);
      DatasAppend(opts, Heard(before), last);
      assert Heard(before) + [] == Heard(before);
    }
  }

  lemma FreshBalance(opts: Options, b: Birth)
    ensures var s := Fresh(opts, b.webSocket, b.room, b.now).(readyState := OPEN);
            BalanceOf(opts, s.meter, s.out.accepted, Heard(s.log.events)) ==
            Balance(0, 0, 0, 0, if opts.rateLimit.Some? then Some(L.Create(opts.rateLimit.value, b.now)) else None)
  {}

  lemma OpenedIdle(opts: Options, s: State)
    ensures var s1 := Emit(s, Opened); Idle(s, s1.(heart := H.SchedulePing(opts, s1.heart)))
  {
    EmitDeaf(s, Opened);
  }

  lemma BornBalance(opts: Options, b: Birth)
    ensures var s := Born(opts, b);
            BalanceOf(opts, s.meter, s.out.accepted, Heard(s.log.events)) ==
            Balance(0, 0, 0, 0, if opts.rateLimit.Some? then Some(L.Create(opts.rateLimit.value, b.now)) else None)
  {
    var s := Fresh(opts, b.webSocket, b.room, b.now).(readyState := OPEN);
    FreshBalance(opts, b);
    SendPacketEven(opts, s, OpenPacket(b));
    OpenedIdle(opts, SendPacket(opts, s, OpenPacket(b)));
    IdleEven(opts, SendPacket(opts, s, OpenPacket(b)), Born(opts, b));
  }

  /**
   * In every run the counters are the history: messages and bytes sent are those of the
   * packets accepted and of the broadcasts dropped, messages and bytes received those
   * of the "data" events.
   */
  lemma CountersAreHistory(opts: Options, b: Birth, steps: seq<Step>)
    ensures var s := Life(opts, b, steps);
            && s.meter.messagesSent == Messages(s.out.accepted) + Dropped(opts, Born(opts, b), steps)
            && s.meter.bytesSent == MessageBytes(opts, s.out.accepted) + DroppedBytes(opts, Born(opts, b), steps)
            && s.meter.messagesReceived == Datas(s.log.events)
            && s.meter.bytesReceived == DataBytes(opts, s.log.events)
  {
    BornOpens(opts, b);
    BornBalance(opts, b);
    RunBooked(opts, Born(opts, b), steps);
    HeardDatas(opts, Life(opts, b, steps).log.events);
  }

  /** Between two ticks of the limiter every "data" event costs one unit of the budget. */
  lemma DataCostsBudget(opts: Options, b: Birth, steps: seq<Step>, more: seq<Step>)
    requires opts.rateLimit.Some? && !Ticks(more)
    ensures var s, t := Life(opts, b, steps), Life(opts, b, steps + more);
            && (s.meter.limiter.Some? <==> t.meter.limiter.Some?)
            && (s.meter.limiter.Some? ==>
                  Datas(t.log.events) - Datas(s.log.events) ==
                  s.meter.limiter.value.remaining - t.meter.limiter.value.remaining)
  {
    var s := Life(opts, b, steps);
    LifeInv(opts, b, steps);
    RunConcat(opts, Born(opts, b), steps, more);
    RunBooked(opts, s, more);
    HeardDatas(opts, s.log.events);
    HeardDatas(opts, Run(opts, s, more).log.events);
  }
}
