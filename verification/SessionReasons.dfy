/** When a session closes, and why: the reason it reports is what happened to it, and nothing else closes it. */
module SessionReasons {
  import opened Packets
  import opened Transport
  import opened Session
  import opened SessionInvariants
  import opened SessionSteps
  import opened SessionTheorems
  import Parser
  import H = Heartbeat
  import P = PollingTransport
  import W = WebSocketTransport

  /** The reason of the first "close" event. */
  function ReasonOf(es: seq<Event>): Option<CloseReason> {
    if es == [] then None
    else
      var before, last := ReasonOf(es[..|es| - 1]), es[|es| - 1];
      if before.Some? then before else if last.Closed? then Some(last.reason) else None
  }

  lemma {:induction false} NoReasonYet(es: seq<Event>)
    ensures ReasonOf(es).None? <==> Closings(es) == 0
  {
    if es != [] {
      NoReasonYet(es[..|es| - 1]);
    }
  }

  lemma ReasonAppend(es: seq<Event>, e: Event)
    ensures ReasonOf(es + [e]) ==
            (if ReasonOf(es).Some? then ReasonOf(es) else if e.Closed? then Some(e.reason) else None)
  {
    assert (es + [e])[..|es|] == es;
  }

  lemma {:induction false} ReasonStays(es: seq<Event>, fs: seq<Event>)
    requires es <= fs && ReasonOf(es).Some?
    ensures ReasonOf(fs) == ReasonOf(es)
  {
    if es != fs {
      ReasonStays(es, fs[..|fs| - 1]);
    }
  }

  /** A live session is closed now for this reason, or is still alive. */
  predicate Ends(s: State, t: State, outcome: Option<CloseReason>) {
    s.readyState != CLOSED ==>
      (t.readyState == CLOSED <==> outcome.Some?) && ReasonOf(t.log.events) == outcome
  }

  lemma Alive(s: State, t: State)
    requires Kept(s, t) && t.readyState != CLOSED
    ensures Ends(s, t, None)
  {
    NoReasonYet(t.log.events);
  }

  /** A step in two parts ends for what ended the first, or else the second. */
  lemma EndsTrans(s: State, t: State, u: State, first: Option<CloseReason>, second: Option<CloseReason>)
    requires Kept(s, t) && Kept(t, u)
    requires Ends(s, t, first) && (first.None? ==> Ends(t, u, second))
    ensures Ends(s, u, if first.Some? then first else second)
  {
    if s.readyState != CLOSED && first.Some? {
      ReasonStays(t.log.events, u.log.events);
    }
  }

  lemma CloseEvents(s: State, r: CloseReason)
    requires s.readyState != CLOSED
    ensures OnClose(s, r).log.events == s.log.events + [Closed(r)] && OnClose(s, r).readyState == CLOSED
  {}

  lemma OnCloseEnds(s: State, r: CloseReason)
    requires Inv(s)
    ensures Ends(s, OnClose(s, r), Some(r))
  {
    NoReasonYet(s.log.events);
    if s.readyState != CLOSED {
      CloseEvents(s, r);
      ReasonAppend(s.log.events, Closed(r));
    }
  }

  /** What a flush leads to. */
  function FlushOutcome(s: State): Option<CloseReason> {
    if s.readyState == CLOSING && Writable(s) then Some(ForcedClose) else None
  }

  lemma FlushEnds(opts: Options, s: State)
    requires Base(s) && PollingOpen(s)
    requires s.readyState == CLOSING ==> s.out.closeOnDrain && s.out.buffer != []
    ensures Ends(s, Flush(opts, s), FlushOutcome(s))
    ensures FlushOutcome(s).None? ==> Flush(opts, s).readyState == s.readyState
  {
    FlushKeeps(opts, s);
    NoReasonYet(s.log.events);
    ReasonAppend(s.log.events, Closed(ForcedClose));
  }

  // ----- step by step -----

  lemma CloseSessionEnds(s: State)
    requires Inv(s)
    ensures Ends(s, CloseSession(s), if s.readyState == OPEN && s.out.buffer == [] then Some(ForcedClose) else None)
  {
    NoReasonYet(s.log.events);
    if s.readyState == OPEN && s.out.buffer == [] {
      var s1 := s.(readyState := CLOSING);
      LiveIsClosable(s1);
      FinishCloseKeeps(s1);
      ReasonAppend(s.log.events, Closed(ForcedClose));
    }
  }

  /** A packet no client may send to an open session. */
  predicate Unexpected(p: Packet) {
    p.kind != Ping && p.kind != Pong && p.kind != Message
  }

  function PacketOutcome(s: State, p: Packet): Option<CloseReason> {
    if s.readyState == OPEN && Unexpected(p) then Some(ParseError) else None
  }

  lemma ExpectedStays(opts: Options, s: State, p: Packet)
    requires Inv(s) && s.readyState == OPEN && !Unexpected(p)
    ensures OnPacket(opts, s, p).readyState == OPEN
  {
    if p.kind == Ping {
      SideFields(s, Note(s, PacketSeen(p)));
      SendPingOrPongKeeps(opts, Note(s, PacketSeen(p)), Pong);
    }
  }

  lemma UnexpectedEnds(opts: Options, s: State, p: Packet)
    requires Inv(s) && s.readyState == OPEN && Unexpected(p)
    ensures Ends(s, OnPacket(opts, s, p), Some(ParseError))
  {
    SideFields(s, Note(s, PacketSeen(p)));
    OnCloseEnds(Note(s, PacketSeen(p)), ParseError);
  }

  lemma OnPacketEnds(opts: Options, s: State, p: Packet)
    requires Inv(s)
    ensures Ends(s, OnPacket(opts, s, p), PacketOutcome(s, p))
    ensures s.readyState != OPEN ==> OnPacket(opts, s, p) == s
  {
    if s.readyState != OPEN {
      NoReasonYet(s.log.events);
    } else if Unexpected(p) {
      UnexpectedEnds(opts, s, p);
    } else {
      OnPacketKeeps(opts, s, p);
      ExpectedStays(opts, s, p);
      Alive(s, OnPacket(opts, s, p));
    }
  }

  lemma FailedEnds(s: State)
    requires Inv(s)
    ensures Ends(s, TransportFailed(s), Some(TransportError))
    ensures Ends(s, TransportClosed(s), Some(TransportClose))
  {
    OnCloseEnds(s, TransportError);
    OnCloseEnds(s, TransportClose);
  }

  lemma ClientCloseEnds(s: State)
    requires Inv(s) && s.polling.Some? && s.ws.None?
    ensures var s1 := s.(polling := Some(P.DoClose(s.polling.value)));
            Ends(s, TransportClosed(s1), Some(TransportClose))
  {
    var s1 := s.(polling := Some(P.DoClose(s.polling.value)));
    NoReasonYet(s.log.events);
    if s.readyState != CLOSED {
      CloseEvents(s1, TransportClose);
      ReasonAppend(s.log.events, Closed(TransportClose));
    }
  }

  function PostedOutcome(s: State, p: Packet): Option<CloseReason> {
    if s.ws.Some? then None
    else if p.kind == Close then Some(TransportClose)
    else PacketOutcome(s, p)
  }

  lemma PostedPacketEnds(opts: Options, s: State, p: Packet)
    requires Inv(s)
    ensures Ends(s, PostedPacket(opts, s, p), PostedOutcome(s, p))
  {
    NoReasonYet(s.log.events);
    if s.polling.Some? && s.ws.None? {
      if p.kind == Close {
        ClientCloseEnds(s);
      } else {
        OnPacketEnds(opts, s, p);
      }
    }
  }

  /** Nothing that is posted changes the transport, and what does not close the session leaves its state. */
  lemma PostedPacketStays(opts: Options, s: State, p: Packet)
    requires Inv(s)
    ensures var t := PostedPacket(opts, s, p);
            && (t.ws.Some? <==> s.ws.Some?)
            && (t.readyState != CLOSED ==> (t.readyState == OPEN <==> s.readyState == OPEN))
  {
    PostedPacketKeeps(opts, s, p);
    PostedUpgrades(opts, s, p);
    if s.polling.Some? && s.ws.None? && p.kind != Close {
      OnPacketEnds(opts, s, p);
      OnPacketStays(opts, s, p);
    }
  }

  lemma PostedUpgrades(opts: Options, s: State, p: Packet)
    ensures PostedPacket(opts, s, p).upgradeState == s.upgradeState
  {}

  lemma OnPacketStays(opts: Options, s: State, p: Packet)
    requires Inv(s)
    ensures var t := OnPacket(opts, s, p); t.readyState == s.readyState || t.readyState == CLOSED
  {
    if s.readyState == OPEN && !Unexpected(p) {
      ExpectedStays(opts, s, p);
    }
  }

  /** The first packet of a POST that ends the session. */
  function Ending(ps: seq<Packet>, open: bool): Option<Packet> {
    if ps == [] then None
    else if ps[0].kind == Close || (open && Unexpected(ps[0])) then Some(ps[0])
    else Ending(ps[1..], open)
  }

  function PostOutcome(s: State, ps: seq<Packet>): Option<CloseReason> {
    var p := Ending(ps, s.readyState == OPEN);
    if s.ws.Some? || p.None? then None else Some(if p.value.kind == Close then TransportClose else ParseError)
  }

  lemma {:induction false} PostArrivesEnds(opts: Options, s: State, ps: seq<Packet>)
    requires Inv(s)
    ensures Ends(s, PostArrives(opts, s, ps), PostOutcome(s, ps))
    decreases |ps|
  {
    if ps == [] {
      NoReasonYet(s.log.events);
    } else {
      var s1 := PostedPacket(opts, s, ps[0]);
      PostedPacketKeeps(opts, s, ps[0]);
      PostedPacketEnds(opts, s, ps[0]);
      PostedPacketStays(opts, s, ps[0]);
      PostArrivesKeeps(opts, s1, ps[1..]);
      PostArrivesEnds(opts, s1, ps[1..]);
      EndsTrans(s, s1, PostArrives(opts, s1, ps[1..]), PostedOutcome(s, ps[0]), PostOutcome(s1, ps[1..]));
    }
  }

  /** What the events of a polling request lead to. */
  function PollOutcome(s: State): Option<CloseReason> {
    if s.ws.Some? || s.polling.None? then None
    else if s.polling.value.pending.Some? then Some(TransportError)
    else if s.readyState == CLOSING then Some(ForcedClose)
    else None
  }

  lemma PollArrivesEnds(opts: Options, s: State)
    requires Inv(s)
    ensures Ends(s, PollArrives(opts, s), PollOutcome(s))
  {
    NoReasonYet(s.log.events);
    if s.readyState != CLOSED && s.ws.None? {
      if s.polling.value.pending.Some? {
        FailedEnds(s);
      } else {
        var s1 := s.(polling := Some(P.Accept(s.polling.value)));
        PollingQuiet(s.polling.value, P.OpArrive);
        assert Base(s1) && PollingOpen(s1);
        FlushEnds(opts, s1);
      }
    }
  }

  function GivenUp(s: State, error: bool): Option<CloseReason> {
    if error && s.ws.None? then Some(TransportError) else None
  }

  lemma PollTimesOutEnds(s: State, poll: nat)
    requires Inv(s)
    ensures Ends(s, PollTimesOut(s, poll), GivenUp(s, s.polling.Some? && P.ExpiryIsError(s.polling.value, poll)))
  {
    NoReasonYet(s.log.events);
    if s.polling.Some? {
      PollingQuiet(s.polling.value, P.OpExpire(poll));
      PollingField(s, P.Expire(s.polling.value, poll));
      FailedEnds(s.(polling := Some(P.Expire(s.polling.value, poll))));
    }
  }

  lemma PollAbortsEnds(s: State, poll: nat)
    requires Inv(s)
    ensures Ends(s, PollAborts(s, poll), GivenUp(s, s.polling.Some? && P.AbortIsError(s.polling.value, poll)))
  {
    NoReasonYet(s.log.events);
    if s.polling.Some? {
      PollingQuiet(s.polling.value, P.OpAbort(poll));
      PollingField(s, P.Abort(s.polling.value, poll));
      FailedEnds(s.(polling := Some(P.Abort(s.polling.value, poll))));
    }
  }

  function ResumeOutcome(opts: Options, s: State): Option<CloseReason> {
    if s.ws.Some? && s.readyState == CLOSING && W.Resumes(opts, s.ws.value) then Some(ForcedClose) else None
  }

  lemma ResumedEnds(opts: Options, s: State)
    requires Inv(s) && s.ws.Some?
    ensures Ends(s, Resumed(opts, s), ResumeOutcome(opts, s))
    ensures ResumeOutcome(opts, s).None? ==> Resumed(opts, s).readyState == s.readyState
  {
    NoReasonYet(s.log.events);
    if W.Resumes(opts, s.ws.value) && s.attached {
      var s1 := s.(ws := Some(W.Resume(opts, s.ws.value)));
      assert Base(s1) && PollingOpen(s1);
      FlushEnds(opts, s1);
    }
  }

  function DispatchOutcome(s: State, frame: RawData): Option<CloseReason> {
    var p := Parser.DecodePacket(frame);
    if p.kind == Close then None else PacketOutcome(s, p)
  }

  lemma DispatchEnds(opts: Options, s: State, frame: RawData)
    requires Inv(s)
    ensures Ends(s, Dispatch(opts, s, frame), DispatchOutcome(s, frame))
  {
    NoReasonYet(s.log.events);
    if IsMessageText(frame) {
      DispatchKeeps(opts, s, frame);
      MessageStays(opts, s, frame);
      if s.readyState != CLOSED {
        Alive(s, Dispatch(opts, s, frame));
      }
    } else if Parser.DecodePacket(frame).kind != Close {
      OnPacketEnds(opts, s, Parser.DecodePacket(frame));
    }
  }

  lemma MessageStays(opts: Options, s: State, frame: RawData)
    requires IsMessageText(frame)
    ensures Dispatch(opts, s, frame).readyState == s.readyState && Parser.DecodePacket(frame).kind == Message
  {}

  /** What a frame on the bound WebSocket leads to. */
  function FrameOutcome(opts: Options, s: State, frame: RawData): Option<CloseReason> {
    if s.ws.None? || s.ws.value.link == W.Disconnected then None
    else if ResumeOutcome(opts, s).Some? then ResumeOutcome(opts, s)
    else DispatchOutcome(s, frame)
  }

  lemma FrameArrivesEnds(opts: Options, s: State, frame: RawData)
    requires Inv(s)
    ensures Ends(s, FrameArrives(opts, s, frame), FrameOutcome(opts, s, frame))
  {
    NoReasonYet(s.log.events);
    if s.ws.Some? && s.ws.value.link != W.Disconnected {
      var s1 := Resumed(opts, s);
      ResumedKeeps(opts, s);
      ResumedEnds(opts, s);
      DispatchKeeps(opts, s1, frame);
      DispatchEnds(opts, s1, frame);
      TwoParts(opts, s, s1, Dispatch(opts, s1, frame), frame);
    }
  }

  lemma TwoParts(opts: Options, s: State, s1: State, t: State, frame: RawData)
    requires s.ws.Some? && s.ws.value.link != W.Disconnected && Kept(s, s1) && Kept(s1, t)
    requires Ends(s, s1, ResumeOutcome(opts, s)) && Ends(s1, t, DispatchOutcome(s1, frame))
    requires ResumeOutcome(opts, s).None? ==> s1.readyState == s.readyState
    ensures Ends(s, t, FrameOutcome(opts, s, frame))
  {
    EndsTrans(s, s1, t, ResumeOutcome(opts, s), DispatchOutcome(s1, frame));
  }

  lemma WebSocketClosesEnds(s: State)
    requires Inv(s)
    ensures Ends(s, WebSocketCloses(s),
                 if s.ws.Some? && s.ws.value.link != W.Disconnected then Some(TransportClose) else None)
  {
    NoReasonYet(s.log.events);
    if s.ws.Some? {
      WebSocketField(s, W.CloseEvent(s.ws.value));
      FailedEnds(s.(ws := Some(W.CloseEvent(s.ws.value))));
    }
  }

  lemma TakeOverEnds(opts: Options, s: State, w: W.State)
    requires Inv(s) && s.probe.transport == Some(w) && s.readyState != CLOSED
    ensures Ends(s, TakeOver(opts, s, w), if s.readyState == CLOSING && w.writable then Some(ForcedClose) else None)
  {
    ReboundKeepsBase(s, w);
    FlushEnds(opts, Rebound(s, w));
  }

  /** Of the candidate's packets only the upgrade can close the session. */
  lemma CandidateStays(opts: Options, s: State, p: Packet)
    requires s.probe.transport.Some? && p.kind != Upgrade
    ensures CandidatePacket(opts, s, p).readyState == s.readyState
  {}

  lemma CandidatePacketEnds(opts: Options, s: State, p: Packet)
    requires Inv(s) && s.probe.transport.Some? && s.readyState != CLOSED
    ensures Ends(s, CandidatePacket(opts, s, p),
                 if p.kind == Upgrade && s.readyState == CLOSING && s.probe.transport.value.writable
                 then Some(ForcedClose) else None)
  {
    if p.kind == Upgrade {
      TakeOverEnds(opts, s, s.probe.transport.value);
    } else {
      CandidatePacketKeeps(opts, s, p);
      CandidateStays(opts, s, p);
      Alive(s, CandidatePacket(opts, s, p));
    }
  }

  /** The upgrade packet comes, on a candidate that can be written to. */
  predicate TakesOver(opts: Options, s: State, frame: RawData) {
    && s.probe.transport.Some? && s.probe.transport.value.link != W.Disconnected
    && Parser.DecodePacket(frame).kind == Upgrade && W.Resume(opts, s.probe.transport.value).writable
  }

  lemma CandidateFrameEnds(opts: Options, s: State, frame: RawData)
    requires Inv(s)
    ensures Ends(s, CandidateFrame(opts, s, frame),
                 if s.readyState == CLOSING && TakesOver(opts, s, frame) then Some(ForcedClose) else None)
  {
    NoReasonYet(s.log.events);
    if s.readyState != CLOSED && s.probe.transport.Some? && s.probe.transport.value.link != W.Disconnected {
      var w := W.Resume(opts, s.probe.transport.value);
      CandidateQuiet(opts, s.probe.transport.value);
      ProbingKeeps(s, w);
      CandidatePacketEnds(opts, Probing(s, w), Parser.DecodePacket(frame));
    }
  }

  lemma PingTimesOutEnds(s: State)
    requires Inv(s)
    ensures Ends(s, PingTimesOut(s), if H.TimeoutDue(s.heart) then Some(PingTimeout) else None)
  {
    NoReasonYet(s.log.events);
    HeartField(s, s.(heart := H.FireTimeout(s.heart)));
    OnCloseEnds(s.(heart := H.FireTimeout(s.heart)), PingTimeout);
  }

  lemma SendPingStays(opts: Options, s: State, h: H.State)
    requires Inv(s)
    ensures SendPing(opts, s.(heart := h)).readyState == s.readyState
  {
    HeartField(s, s.(heart := h));
    SendPingOrPongKeeps(opts, s.(heart := h), Ping);
  }

  lemma PingEnds(opts: Options, s: State, step: Step)
    requires Inv(s) && (step.PingTimer? || step.StrayPingTimer?)
    ensures Ends(s, Apply(opts, s, step), None)
  {
    SendPingStays(opts, s, H.FireInterval(s.heart));
    SendPingStays(opts, s, H.FireStray(s.heart));
    StepKeeps(opts, s, step);
    NoReasonYet(Apply(opts, s, step).log.events);
  }

  lemma SentEnds(s: State, t: State)
    requires Inv(s) && OnlySent(s, t)
    ensures Ends(s, t, None)
  {
    NoReasonYet(s.log.events);
  }

  lemma SendEnds(opts: Options, s: State, data: RawData)
    requires Inv(s)
    ensures Ends(s, Write(opts, s, data), None) && Ends(s, Broadcast(opts, s, data), None)
  {
    WriteKeeps(opts, s, data);
    SentEnds(s, Write(opts, s, data));
    BroadcastKeeps(opts, s, data);
    SentEnds(s, Broadcast(opts, s, data));
  }

  // ----- what each reason means -----

  /** The transport in use becomes writable. */
  predicate Drains(opts: Options, s: State, step: Step) {
    || (step.PollIn? && s.ws.None? && s.polling.Some? && s.polling.value.pending.None?)
    || (step.FrameIn? && s.ws.Some? && s.ws.value.link != W.Disconnected && W.Resumes(opts, s.ws.value))
    || (step.ProbeFrameIn? && TakesOver(opts, s, step.frame))
  }

  /** What must happen to a live session, in this step, for it to close for this reason. */
  predicate Explains(opts: Options, s: State, step: Step, r: CloseReason) {
    match r
    case PingTimeout => step.PingTimeoutTimer? && H.TimeoutDue(s.heart)
    case TransportError =>
      && s.ws.None? && s.polling.Some? && s.polling.value.pending.Some?
      && (|| step.PollIn?
          || (step.PollTimeout? && step.poll in s.polling.value.timers)
          || (step.PollAbort? && step.poll in s.polling.value.handlers))
    case TransportClose =>
      || (step.WsClose? && s.ws.Some? && s.ws.value.link != W.Disconnected)
      || (step.PostIn? && s.ws.None? &&
          var p := Ending(step.packets, s.readyState == OPEN); p.Some? && p.value.kind == Close)
    case ParseError =>
      && s.readyState == OPEN
      && (|| (step.FrameIn? && s.ws.Some? && s.ws.value.link != W.Disconnected &&
              var p := Parser.DecodePacket(step.frame); p.kind != Close && Unexpected(p))
          || (step.PostIn? && s.ws.None? && var p := Ending(step.packets, true); p.Some? && p.value.kind != Close))
    case ForcedClose =>
      || (step.DoClose? && s.readyState == OPEN && s.out.buffer == [])
      || (s.readyState == CLOSING && Drains(opts, s, step))
  }

  /** Closed for a reason exactly when the reason explains it. */
  ghost predicate Explained(opts: Options, s: State, step: Step, t: State) {
    s.readyState != CLOSED ==>
      && (t.readyState == CLOSED <==> ReasonOf(t.log.events).Some?)
      && forall r: CloseReason :: ReasonOf(t.log.events) == Some(r) <==> Explains(opts, s, step, r)
  }

  lemma Explain(opts: Options, s: State, step: Step, t: State, outcome: Option<CloseReason>)
    requires Ends(s, t, outcome)
    requires s.readyState != CLOSED ==> forall r: CloseReason :: outcome == Some(r) <==> Explains(opts, s, step, r)
    ensures Explained(opts, s, step, t)
  {}

  /** A session that is not open is not ended by an unexpected packet. */
  lemma {:induction false} EndingCloses(ps: seq<Packet>)
    ensures var p := Ending(ps, false); p.Some? ==> p.value.kind == Close
  {
    if ps != [] {
      EndingCloses(ps[1..]);
    }
  }

  lemma PollExplained(opts: Options, s: State)
    requires Inv(s)
    ensures Explained(opts, s, PollIn, PollArrives(opts, s))
  {
    PollArrivesEnds(opts, s);
    Explain(opts, s, PollIn, PollArrives(opts, s), PollOutcome(s));
  }

  lemma PollTimeoutExplained(opts: Options, s: State, poll: nat)
    requires Inv(s)
    ensures Explained(opts, s, PollTimeout(poll), PollTimesOut(s, poll))
  {
    PollTimesOutEnds(s, poll);
    Explain(opts, s, PollTimeout(poll), PollTimesOut(s, poll),
            GivenUp(s, s.polling.Some? && P.ExpiryIsError(s.polling.value, poll)));
  }

  lemma PollAbortExplained(opts: Options, s: State, poll: nat)
    requires Inv(s)
    ensures Explained(opts, s, PollAbort(poll), PollAborts(s, poll))
  {
    PollAbortsEnds(s, poll);
    Explain(opts, s, PollAbort(poll), PollAborts(s, poll),
            GivenUp(s, s.polling.Some? && P.AbortIsError(s.polling.value, poll)));
  }

  lemma PostExplained(opts: Options, s: State, ps: seq<Packet>)
    requires Inv(s)
    ensures Explained(opts, s, PostIn(ps), PostArrives(opts, s, ps))
  {
    PostArrivesEnds(opts, s, ps);
    EndingCloses(ps);
    Explain(opts, s, PostIn(ps), PostArrives(opts, s, ps), PostOutcome(s, ps));
  }

  lemma CloseExplained(opts: Options, s: State)
    requires Inv(s)
    ensures Explained(opts, s, DoClose, CloseSession(s))
  {
    CloseSessionEnds(s);
  }

  lemma SendExplained(opts: Options, s: State, data: RawData)
    requires Inv(s)
    ensures Explained(opts, s, DoWrite(data), Write(opts, s, data))
    ensures Explained(opts, s, DoBroadcast(data), Broadcast(opts, s, data))
  {
    SendEnds(opts, s, data);
    Explain(opts, s, DoWrite(data), Write(opts, s, data), None);
    Explain(opts, s, DoBroadcast(data), Broadcast(opts, s, data), None);
  }

  /** The other steps report nothing. */
  predicate IsQuiet(step: Step) {
    || step.EnablePacketCreate? || step.WsDrain? || step.UpgradeIn? || step.ProbeClose? || step.ProbeDrain?
    || step.UpgradeTimeout? || step.NoopTimer? || step.LimiterTimer? || step.Wait?
  }

  lemma QuietStep(opts: Options, s: State, step: Step)
    requires IsQuiet(step)
    ensures OnlySent(s, Apply(opts, s, step))
  {}

  lemma QuietExplained(opts: Options, s: State, step: Step)
    requires Inv(s) && IsQuiet(step)
    ensures Explained(opts, s, step, Apply(opts, s, step))
  {
    QuietStep(opts, s, step);
    SentEnds(s, Apply(opts, s, step));
    Explain(opts, s, step, Apply(opts, s, step), None);
  }

  lemma OuterExplained(opts: Options, s: State, step: Step)
    requires Inv(s) && IsOuterStep(step)
    ensures Explained(opts, s, step, Apply(opts, s, step))
  {
    match step
    case DoWrite(data) => SendExplained(opts, s, data);
    case DoBroadcast(data) => SendExplained(opts, s, data);
    case DoClose => CloseExplained(opts, s);
    case EnablePacketCreate => QuietExplained(opts, s, step);
    case PollIn => PollExplained(opts, s);
    case PollTimeout(poll) => PollTimeoutExplained(opts, s, poll);
    case PollAbort(poll) => PollAbortExplained(opts, s, poll);
    case PostIn(ps) => PostExplained(opts, s, ps);
  }

  /** A closing session ends as the frame resumes its transport; an open one by the packet in it. */
  lemma FrameMeaning(opts: Options, s: State, frame: RawData, r: CloseReason)
    requires s.readyState != CLOSED
    ensures FrameOutcome(opts, s, frame) == Some(r) <==> Explains(opts, s, FrameIn(frame), r)
  {}

  lemma FrameExplained(opts: Options, s: State, frame: RawData)
    requires Inv(s)
    ensures Explained(opts, s, FrameIn(frame), FrameArrives(opts, s, frame))
  {
    FrameArrivesEnds(opts, s, frame);
    if s.readyState != CLOSED {
      forall r: CloseReason
        ensures FrameOutcome(opts, s, frame) == Some(r) <==> Explains(opts, s, FrameIn(frame), r)
      {
        FrameMeaning(opts, s, frame, r);
      }
    }
    Explain(opts, s, FrameIn(frame), FrameArrives(opts, s, frame), FrameOutcome(opts, s, frame));
  }

  lemma CandidateFrameExplained(opts: Options, s: State, frame: RawData)
    requires Inv(s)
    ensures Explained(opts, s, ProbeFrameIn(frame), CandidateFrame(opts, s, frame))
  {
    CandidateFrameEnds(opts, s, frame);
    Explain(opts, s, ProbeFrameIn(frame), CandidateFrame(opts, s, frame),
            if s.readyState == CLOSING && TakesOver(opts, s, frame) then Some(ForcedClose) else None);
  }

  lemma WebSocketCloseExplained(opts: Options, s: State)
    requires Inv(s)
    ensures Explained(opts, s, WsClose, WebSocketCloses(s))
  {
    WebSocketClosesEnds(s);
  }

  lemma PingExplained(opts: Options, s: State, step: Step)
    requires Inv(s) && (step.PingTimer? || step.StrayPingTimer?)
    ensures Explained(opts, s, step, Apply(opts, s, step))
  {
    PingEnds(opts, s, step);
    Explain(opts, s, step, Apply(opts, s, step), None);
  }

  lemma PingTimeoutExplained(opts: Options, s: State)
    requires Inv(s)
    ensures Explained(opts, s, PingTimeoutTimer, PingTimesOut(s))
  {
    PingTimesOutEnds(s);
    Explain(opts, s, PingTimeoutTimer, PingTimesOut(s), if H.TimeoutDue(s.heart) then Some(PingTimeout) else None);
  }

  lemma InnerExplained(opts: Options, s: State, step: Step)
    requires Inv(s) && !IsOuterStep(step)
    ensures Explained(opts, s, step, Apply(opts, s, step))
  {
    match step
    case FrameIn(frame) => FrameExplained(opts, s, frame);
    case WsClose => WebSocketCloseExplained(opts, s);
    case ProbeFrameIn(frame) => CandidateFrameExplained(opts, s, frame);
    case PingTimer => PingExplained(opts, s, step);
    case StrayPingTimer => PingExplained(opts, s, step);
    case PingTimeoutTimer => PingTimeoutExplained(opts, s);
    case _ => QuietExplained(opts, s, step);
  }

  /**
   * In every run a session closes in a step, and reports a reason, exactly when that reason
   * is what the step does to it.
   */
  lemma CloseReasonTells(opts: Options, b: Birth, steps: seq<Step>, step: Step)
    ensures var s := Life(opts, b, steps); Explained(opts, s, step, Apply(opts, s, step))
  {
    var s := Life(opts, b, steps);
    LifeInv(opts, b, steps);
    if IsOuterStep(step) {
      OuterExplained(opts, s, step);
    } else {
      InnerExplained(opts, s, step);
    }
  }
}
