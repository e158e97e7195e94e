/** The polls of a session: in any run, which of them nobody will ever answer. */
module SessionPolls {
  import opened Packets
  import opened Transport
  import opened Session
  import opened SessionInvariants
  import opened SessionSteps
  import opened SessionRefinement
  import opened SessionTheorems
  import opened SessionReasons
  import Parser
  import H = Heartbeat
  import P = PollingTransport
  import W = WebSocketTransport

  /** The same polls are left hanging, and the transport stays in order. */
  ghost predicate SameHanging(p: P.State, q: P.State) {
    P.Inv(p) ==> P.Inv(q) && forall poll: nat :: P.Forgotten(q, poll) <==> P.Forgotten(p, poll)
  }

  ghost predicate Calm(s: State, t: State) {
    && (t.polling.Some? <==> s.polling.Some?)
    && (s.polling.Some? ==> SameHanging(s.polling.value, t.polling.value))
  }

  lemma CalmTrans(s: State, t: State, u: State)
    requires Calm(s, t) && Calm(t, u)
    ensures Calm(s, u)
  {}

  lemma AwayCalm(s: State, t: State)
    requires t.polling == s.polling
    ensures Calm(s, t)
  {}

  lemma OpCalm(p: P.State, op: P.Op)
    requires !P.Stale(p, op)
    ensures SameHanging(p, P.Apply(p, op))
  {
    if P.Inv(p) {
      P.ApplyKeepsInv(p, op);
      forall poll: nat
        ensures P.Forgotten(P.Apply(p, op), poll) <==> P.Forgotten(p, poll)
      {
        P.StepForgets(p, op, poll);
      }
    }
  }

  lemma RefuseCalm(p: P.State)
    ensures SameHanging(p, P.Refuse(p))
  {
    if P.Inv(p) {
      P.OneMorePoll(p.settled, p.polls);
      P.SettlesAppend(p.settled, P.Refused(p.polls));
    }
  }

  // ----- step by step -----

  lemma ShutCalm(p: P.State)
    ensures SameHanging(p, P.Shut(p))
  {
    OpCalm(p, P.OpClose);
    assert P.Apply(p, P.OpClose) == P.Shut(p);
  }

  lemma CloseTransportCalm(s: State)
    ensures Calm(s, CloseTransport(s))
  {
    if s.ws.Some? || s.polling.None? {
      AwayCalm(s, CloseTransport(s));
    } else {
      ShutCalm(s.polling.value);
    }
  }

  lemma OnCloseCalm(s: State, reason: CloseReason)
    ensures Calm(s, OnClose(s, reason))
  {
    CloseTransportCalm(s.(readyState := CLOSED, heart := H.Cancel(s.heart)));
  }

  lemma FinishCloseCalm(s: State)
    ensures Calm(s, FinishClose(s))
  {
    CloseTransportCalm(s);
    OnCloseCalm(CloseTransport(s), ForcedClose);
    CalmTrans(s, CloseTransport(s), FinishClose(s));
  }

  lemma SendBufferCalm(opts: Options, s: State)
    ensures Calm(s, SendBuffer(opts, s))
  {
    if s.polling.Some? {
      OpCalm(s.polling.value, P.OpSend(s.out.buffer));
    }
  }

  lemma FlushCalm(opts: Options, s: State)
    ensures Calm(s, Flush(opts, s))
  {
    if s.readyState != CLOSED && Writable(s) && s.out.buffer != [] {
      var s1 := SendBuffer(opts, s);
      FlushIsSendBuffer(opts, s);
      SendBufferCalm(opts, s);
      FinishCloseCalm(s1.(out := s1.out.(closeOnDrain := false)));
      CalmTrans(s, s1, OnDrained(s1));
    }
  }

  lemma SendPacketCalm(opts: Options, s: State, p: Packet)
    ensures Calm(s, SendPacket(opts, s, p))
  {
    SendPacketIsFlush(opts, s, p);
    FlushCalm(opts, Pushed(opts, s, p));
  }

  lemma OnPacketCalm(opts: Options, s: State, p: Packet)
    ensures Calm(s, PlainOnPacket(opts, s, p))
  {
    if s.readyState == OPEN {
      var s1 := Note(s, PacketSeen(p));
      match p.kind
      case Pong => AwayCalm(s, PlainOnPacket(opts, s, p));
      case Ping => SendPacketCalm(opts, s1, Packet(Pong, None));
      case Message => AwayCalm(s, PlainOnPacket(opts, s, p));
      case _ => OnCloseCalm(s1, ParseError);
    }
  }

  lemma FailedCalm(s: State)
    ensures Calm(s, TransportFailed(s)) && Calm(s, TransportClosed(s))
  {
    OnCloseCalm(s, TransportError);
    OnCloseCalm(s, TransportClose);
  }

  lemma PostedCalm(opts: Options, s: State, p: Packet)
    ensures Calm(s, PlainPosted(opts, s, p))
  {
    OnPacketCalm(opts, s, p);
    if s.polling.Some? {
      var s1 := s.(polling := Some(P.DoClose(s.polling.value)));
      OpCalm(s.polling.value, P.OpDoClose);
      FailedCalm(s1);
      CalmTrans(s, s1, TransportClosed(s1));
    }
  }

  lemma {:induction false} PostCalm(opts: Options, s: State, ps: seq<Packet>)
    ensures Calm(s, PlainPost(opts, s, ps))
    decreases |ps|
  {
    if ps != [] {
      var s1 := PlainPosted(opts, s, ps[0]);
      PostedCalm(opts, s, ps[0]);
      PostCalm(opts, s1, ps[1..]);
      CalmTrans(s, s1, PlainPost(opts, s1, ps[1..]));
    }
  }

  lemma FrameCalm(opts: Options, s: State, frame: RawData)
    ensures Calm(s, PlainFrame(opts, s, frame))
  {
    if s.ws.Some? {
      var s1 := Resumed(opts, s);
      FlushCalm(opts, s.(ws := Some(W.Resume(opts, s.ws.value))));
      OnPacketCalm(opts, s1, Parser.DecodePacket(frame));
      CalmTrans(s, s1, PlainOnPacket(opts, s1, Parser.DecodePacket(frame)));
    }
  }

  lemma PingCalm(opts: Options, s: State, h: H.State)
    ensures Calm(s, PlainPing(opts, s.(heart := h)))
  {
    SendPacketCalm(opts, s.(heart := h), Packet(Ping, None));
  }

  lemma IntervalCalm(opts: Options, s: State)
    ensures Calm(s, PlainApply(opts, s, PingTimer))
  {
    PingCalm(opts, s, H.FireInterval(s.heart));
  }

  lemma StrayCalm(opts: Options, s: State)
    ensures Calm(s, PlainApply(opts, s, StrayPingTimer))
  {
    PingCalm(opts, s, H.FireStray(s.heart));
  }

  lemma PollCalm(opts: Options, s: State)
    ensures Calm(s, PollArrives(opts, s))
  {
    if s.polling.Some? {
      if s.polling.value.pending.Some? {
        var s1 := TransportFailed(s);
        FailedCalm(s);
        RefuseCalm(s1.polling.value);
        CalmTrans(s, s1, s1.(polling := Some(P.Refuse(s1.polling.value))));
      } else {
        var s1 := s.(polling := Some(P.Accept(s.polling.value)));
        OpCalm(s.polling.value, P.OpArrive);
        FlushCalm(opts, s1);
        CalmTrans(s, s1, Flush(opts, s1));
      }
    }
  }

  lemma PollTimesOutCalm(s: State, poll: nat)
    ensures Calm(s, PollTimesOut(s, poll))
  {
    if s.polling.Some? {
      var s1 := s.(polling := Some(P.Expire(s.polling.value, poll)));
      OpCalm(s.polling.value, P.OpExpire(poll));
      FailedCalm(s1);
      CalmTrans(s, s1, TransportFailed(s1));
    }
  }

  lemma PollAbortsCalm(s: State, poll: nat)
    requires s.polling.Some? && !P.Stale(s.polling.value, P.OpAbort(poll))
    ensures Calm(s, PollAborts(s, poll))
  {
    var s1 := s.(polling := Some(P.Abort(s.polling.value, poll)));
    OpCalm(s.polling.value, P.OpAbort(poll));
    FailedCalm(s1);
    CalmTrans(s, s1, TransportFailed(s1));
  }

  lemma BroadcastCalm(opts: Options, s: State, data: RawData)
    ensures Calm(s, Broadcast(opts, s, data))
  {
    SendPacketCalm(opts, s, Packet(Message, Some(data)));
  }

  lemma EndCalm(s: State)
    ensures Calm(s, CloseSession(s)) && Calm(s, WebSocketCloses(s)) && Calm(s, PingTimesOut(s))
  {
    FinishCloseCalm(s.(readyState := CLOSING));
    if s.ws.Some? {
      FailedCalm(s.(ws := Some(W.CloseEvent(s.ws.value))));
    }
    OnCloseCalm(s.(heart := H.FireTimeout(s.heart)), PingTimeout);
  }

  lemma NoopCalm(opts: Options, s: State)
    ensures Calm(s, SendNoop(opts, s))
  {
    if s.polling.Some? {
      OpCalm(s.polling.value, P.OpSend([Packet(Noop, None)]));
    }
  }

  lemma TakeOverCalm(opts: Options, s: State, w: W.State)
    ensures Calm(s, TakeOver(opts, s, w))
  {
    if s.polling.Some? {
      ShutCalm(s.polling.value);
    }
    FlushCalm(opts, Rebound(s, w));
    CalmTrans(s, Rebound(s, w), TakeOver(opts, s, w));
  }

  lemma CandidatePacketCalm(opts: Options, s: State, p: Packet)
    requires s.probe.transport.Some?
    ensures Calm(s, CandidatePacket(opts, s, p))
  {
    var w := s.probe.transport.value;
    if p == Packet(Ping, Some(Text("probe"))) {
      NoopCalm(opts, Probing(s, W.Send(opts, w, [PROBE_PONG])));
    } else if p.kind == Upgrade && s.readyState != CLOSED {
      TakeOverCalm(opts, s, w);
    }
  }

  lemma CandidateFrameCalm(opts: Options, s: State, frame: RawData)
    ensures Calm(s, CandidateFrame(opts, s, frame))
  {
    if s.probe.transport.Some? {
      CandidatePacketCalm(opts, Probing(s, W.Resume(opts, s.probe.transport.value)), Parser.DecodePacket(frame));
    }
  }

  // ----- all steps, all runs -----

  /** The abort of an earlier request reaches the pending poll. */
  predicate StaleAbort(s: State, step: Step) {
    step.PollAbort? && s.polling.Some? && P.Stale(s.polling.value, P.OpAbort(step.poll))
  }

  lemma ShortcutCalm(opts: Options, s: State, step: Step)
    requires HasShortcut(step)
    ensures Calm(s, PlainApply(opts, s, step))
  {
    match step
    case DoWrite(data) => SendPacketCalm(opts, s, Packet(Message, Some(data)));
    case PostIn(ps) => PostCalm(opts, s, ps);
    case FrameIn(frame) => FrameCalm(opts, s, frame);
    case PingTimer => IntervalCalm(opts, s);
    case StrayPingTimer => StrayCalm(opts, s);
  }

  lemma OtherCalm(opts: Options, s: State, step: Step)
    requires !HasShortcut(step) && !StaleAbort(s, step)
    ensures Calm(s, Apply(opts, s, step))
  {
    match step
    case DoBroadcast(data) => BroadcastCalm(opts, s, data);
    case DoClose => EndCalm(s);
    case PollIn => PollCalm(opts, s);
    case PollTimeout(poll) => PollTimesOutCalm(s, poll);
    case PollAbort(poll) =>
      if s.polling.Some? {
        PollAbortsCalm(s, poll);
      }
    case WsClose => EndCalm(s);
    case ProbeFrameIn(frame) => CandidateFrameCalm(opts, s, frame);
    case NoopTimer => NoopCalm(opts, s);
    case PingTimeoutTimer => EndCalm(s);
    case _ => QuietCalm(opts, s, step);
  }

  lemma QuietCalm(opts: Options, s: State, step: Step)
    requires IsQuiet(step) && !step.NoopTimer?
    ensures Calm(s, Apply(opts, s, step))
  {
    AwayCalm(s, Apply(opts, s, step));
  }

  lemma StepCalm(opts: Options, s: State, step: Step)
    requires Inv(s) && !StaleAbort(s, step)
    ensures Calm(s, Apply(opts, s, step))
  {
    if HasShortcut(step) {
      StepIsPlain(opts, s, step);
      ShortcutCalm(opts, s, step);
      AwayCalm(PlainApply(opts, s, step), Apply(opts, s, step));
    } else {
      OtherCalm(opts, s, step);
    }
  }

  /** Only a live session that polls has a poll pending. */
  lemma PendingIsLive(s: State)
    requires Inv(s) && s.polling.Some? && s.polling.value.pending.Some?
    ensures s.ws.None? && s.readyState != CLOSED && s.attached
  {}

  lemma StaleAborts(opts: Options, s: State, step: Step)
    requires Inv(s) && StaleAbort(s, step)
    ensures var t := Apply(opts, s, step);
            && t.readyState == CLOSED && t.log.events == s.log.events + [Closed(TransportError)]
            && t.polling.Some? && P.Forgotten(t.polling.value, s.polling.value.pending.value)
  {
    PendingIsLive(s);
    var p := P.Abort(s.polling.value, step.poll);
    var s1 := s.(polling := Some(p));
    P.StepForgets(s.polling.value, P.OpAbort(step.poll), s.polling.value.pending.value);
    P.ApplyKeepsInv(s.polling.value, P.OpAbort(step.poll));
    FailedCalm(s1);
    CloseEvents(s1, TransportError);
    assert Apply(opts, s, step) == OnClose(s1, TransportError);
  }

  /** Some poll of the session is left hanging. */
  ghost predicate SomeHanging(s: State) {
    s.polling.Some? && P.SomeForgotten(s.polling.value)
  }

  predicate HasStaleAbort(opts: Options, s: State, steps: seq<Step>)
    decreases |steps|
  {
    steps != [] && (StaleAbort(s, steps[0]) || HasStaleAbort(opts, Apply(opts, s, steps[0]), steps[1..]))
  }

  lemma CalmHangs(s: State, t: State)
    requires Inv(s) && Calm(s, t)
    ensures SomeHanging(t) <==> SomeHanging(s)
  {
    if s.polling.Some? {
      var p, q := s.polling.value, t.polling.value;
      assert forall poll: nat :: P.Forgotten(q, poll) <==> P.Forgotten(p, poll);
    }
  }

  /** A poll that hangs goes on hanging. */
  lemma StepHangs(opts: Options, s: State, step: Step)
    requires Inv(s)
    ensures SomeHanging(Apply(opts, s, step)) <==> SomeHanging(s) || StaleAbort(s, step)
  {
    if StaleAbort(s, step) {
      StaleAborts(opts, s, step);
    } else {
      StepCalm(opts, s, step);
      CalmHangs(s, Apply(opts, s, step));
    }
  }

  lemma {:induction false} RunHangs(opts: Options, s: State, steps: seq<Step>)
    requires Inv(s)
    ensures SomeHanging(Run(opts, s, steps)) <==> SomeHanging(s) || HasStaleAbort(opts, s, steps)
    decreases |steps|
  {
    if steps != [] {
      StepKeeps(opts, s, steps[0]);
      StepHangs(opts, s, steps[0]);
      RunHangs(opts, Apply(opts, s, steps[0]), steps[1..]);
    }
  }

  lemma BornHangs(opts: Options, b: Birth)
    ensures !SomeHanging(Born(opts, b))
  {
    BornTransport(opts, b);
  }

  /**
   * In every run some poll of the session is left hanging exactly when the abort handler of
   * an earlier request reached a pending poll.
   */
  lemma PollHangsByStaleAbort(opts: Options, b: Birth, steps: seq<Step>)
    ensures SomeHanging(Life(opts, b, steps)) <==> HasStaleAbort(opts, Born(opts, b), steps)
  {
    BornOpens(opts, b);
    BornHangs(opts, b);
    RunHangs(opts, Born(opts, b), steps);
  }

  /** In every run such an abort leaves the pending poll hanging, and ends the session with "transport error". */
  lemma StaleAbortEndsSession(opts: Options, b: Birth, steps: seq<Step>, step: Step)
    requires StaleAbort(Life(opts, b, steps), step)
    ensures var s := Life(opts, b, steps);
            var t := Apply(opts, s, step);
            && s.readyState != CLOSED && t.readyState == CLOSED
            && t.log.events == s.log.events + [Closed(TransportError)]
            && t.polling.Some? && P.Forgotten(t.polling.value, s.polling.value.pending.value)
  {
    LifeInv(opts, b, steps);
    PendingIsLive(Life(opts, b, steps));
    StaleAborts(opts, Life(opts, b, steps), step);
  }

  // ----- what polls get -----

  /** The next poll: answered with the backlog at once, which may complete a close, or left pending. */
  predicate ServesPoll(s: State, t: State) {
    && s.polling.Some? && t.polling.Some? && t.polling.value.polls == s.polling.value.polls + 1
    && t.out.accepted == s.out.accepted && t.out.buffer == []
    && t.polling.value.handlers == s.polling.value.handlers + {s.polling.value.polls}
    && var poll, settled := s.polling.value.polls, s.polling.value.settled;
       if s.out.buffer == [] then
         && t.polling.value.pending == Some(poll) && t.polling.value.settled == settled
         && t.readyState == s.readyState && t.log == s.log
       else
         && t.polling.value.pending.None? && t.polling.value.settled == settled + [P.Answered(poll, s.out.buffer)]
         && t.log.trace == s.log.trace + [Flushed(s.out.buffer), Drained]
         && (if s.readyState == CLOSING then
               t.readyState == CLOSED && t.log.events == s.log.events + [Closed(ForcedClose)]
             else t.readyState == s.readyState && t.log.events == s.log.events)
  }

  lemma BufferIsAnswered(opts: Options, s: State, p: P.State)
    requires s.out.buffer != [] && s.ws.None? && s.polling == Some(p) && p.writable && p.pending.Some?
    ensures var t := SendBuffer(opts, s);
            && t.polling == Some(P.Send(p, s.out.buffer)) && t.out == s.out.(buffer := [])
            && t.log == s.log.(trace := s.log.trace + [Flushed(s.out.buffer), Drained])
            && t.ws.None? && t.readyState == s.readyState
  {
    assert s.log.trace + [Flushed(s.out.buffer)] + [Drained] == s.log.trace + [Flushed(s.out.buffer), Drained];
  }

  lemma AnsweredThenShut(p: P.State)
    requires p.pending.None? && !p.writable
    ensures P.Shut(p).settled == p.settled && P.Shut(p).pending.None? && P.Shut(p).polls == p.polls
    ensures P.Shut(p).handlers == p.handlers
  {}

  lemma ShutOnce(s: State)
    requires s.readyState != CLOSED && s.ws.None? && s.polling.Some?
    requires s.polling.value.pending.None? && !s.polling.value.writable
    ensures var t := FinishClose(s);
            && t.readyState == CLOSED && t.log == s.log.(events := s.log.events + [Closed(ForcedClose)])
            && t.out == s.out && t.polling.Some? && t.polling.value.settled == s.polling.value.settled
            && t.polling.value.pending.None? && t.polling.value.polls == s.polling.value.polls
            && t.polling.value.handlers == s.polling.value.handlers
  {
    AnsweredThenShut(s.polling.value);
    AnsweredThenShut(P.Shut(s.polling.value));
  }

  lemma PollServed(opts: Options, s: State)
    requires Inv(s) && s.readyState != CLOSED && s.ws.None? && s.polling.value.pending.None?
    ensures ServesPoll(s, PollArrives(opts, s))
  {
    var p := P.Accept(s.polling.value);
    var s1 := s.(polling := Some(p));
    if s.out.buffer != [] {
      FlushIsSendBuffer(opts, s1);
      BufferIsAnswered(opts, s1, p);
      var s2 := SendBuffer(opts, s1);
      ShutOnce(s2.(out := s2.out.(closeOnDrain := false)));
    }
  }

  lemma PollStepIs(opts: Options, s: State)
    ensures Apply(opts, s, PollIn) == PollArrives(opts, s)
  {}

  /**
   * In every run a poll that finds none pending is answered at once with everything the
   * session has buffered, in one response; with nothing buffered it is kept until there is.
   */
  lemma PollIsServed(opts: Options, b: Birth, steps: seq<Step>)
    requires var s := Life(opts, b, steps);
             s.readyState != CLOSED && s.ws.None? && s.polling.Some? && s.polling.value.pending.None?
    ensures var s := Life(opts, b, steps); ServesPoll(s, Apply(opts, s, PollIn))
  {
    LifeInv(opts, b, steps);
    PollServed(opts, Life(opts, b, steps));
    PollStepIs(opts, Life(opts, b, steps));
  }

  /** The pending poll is over, and the session with it. */
  predicate Fails(s: State, t: State, settlements: seq<P.Settlement>) {
    && t.readyState == CLOSED && t.log.events == s.log.events + [Closed(TransportError)]
    && s.polling.Some? && t.polling.Some? && t.polling.value.pending.None?
    && t.polling.value.settled == s.polling.value.settled + settlements
  }

  lemma TimeoutFails(s: State, poll: nat)
    requires Inv(s) && s.readyState != CLOSED && s.ws.None? && s.polling.value.pending == Some(poll)
    ensures Fails(s, PollTimesOut(s, poll), [P.TimedOut(poll)])
  {
    var s1 := s.(polling := Some(P.Expire(s.polling.value, poll)));
    AnsweredThenShut(s1.polling.value);
    assert PollTimesOut(s, poll) == OnClose(s1, TransportError);
  }

  lemma AbortFails(s: State, poll: nat)
    requires Inv(s) && s.readyState != CLOSED && s.ws.None? && s.polling.value.pending.Some?
    requires poll in s.polling.value.handlers
    ensures Fails(s, PollAborts(s, poll), [])
  {
    var s1 := s.(polling := Some(P.Abort(s.polling.value, poll)));
    AnsweredThenShut(s1.polling.value);
    assert PollAborts(s, poll) == OnClose(s1, TransportError);
    assert s.polling.value.settled + [] == s.polling.value.settled;
  }

  lemma TimeoutStepIs(opts: Options, s: State, poll: nat)
    ensures Apply(opts, s, PollTimeout(poll)) == PollTimesOut(s, poll)
    ensures Apply(opts, s, PollAbort(poll)) == PollAborts(s, poll)
  {}

  /** In every run the timeout of the pending poll rejects it, and an abort drops it; both end the session. */
  lemma PollFails(opts: Options, b: Birth, steps: seq<Step>, poll: nat)
    requires var s := Life(opts, b, steps);
             s.readyState != CLOSED && s.ws.None? && s.polling.Some? && s.polling.value.pending.Some?
    ensures var s := Life(opts, b, steps);
            && (s.polling.value.pending == Some(poll) ==>
                  Fails(s, Apply(opts, s, PollTimeout(poll)), [P.TimedOut(poll)]))
            && (poll in s.polling.value.handlers ==> Fails(s, Apply(opts, s, PollAbort(poll)), []))
  {
    var s := Life(opts, b, steps);
    LifeInv(opts, b, steps);
    TimeoutStepIs(opts, s, poll);
    if s.polling.value.pending == Some(poll) {
      TimeoutFails(s, poll);
    }
    if poll in s.polling.value.handlers {
      AbortFails(s, poll);
    }
  }
}
