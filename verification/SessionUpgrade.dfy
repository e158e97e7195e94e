/** An upgrade that runs its course: probe, reply, takeover, backlog. */
module SessionUpgrade {
  import opened Packets
  import opened Transport
  import opened Session
  import opened SessionInvariants
  import opened SessionSteps
  import opened SessionTheorems
  import Parser
  import P = PollingTransport
  import W = WebSocketTransport

  const PROBE := ProbeFrameIn(Text("2probe"))
  const UPGRADE := ProbeFrameIn(Text("5"))

  /** A session that polls and has not been asked to upgrade. */
  predicate Upgradable(s: State) {
    s.readyState == OPEN && s.ws.None? && s.polling.Some? && s.upgradeState == NotUpgraded
  }

  lemma ProbeDecodes()
    ensures Parser.DecodePacket(Text("2probe")) == Packet(Ping, Some(Text("probe")))
    ensures Parser.DecodePacket(Text("5")) == Packet(Upgrade, None)
  {
    assert "2probe"[1..] == "probe";
  }

  /** The candidate after one send: open, writable and one packet further. */
  predicate OneSent(w: W.State, ps: seq<Packet>) {
    w.writable && w.link == W.Connected && w.sendCount <= 1 && w.frames == ps
  }

  lemma Requested(opts: Options, s: State, room: nat)
    requires Upgradable(s)
    ensures var t := Apply(opts, s, UpgradeIn(room));
            && t.probe.transport.Some? && OneSent(t.probe.transport.value, [])
            && t.probe.transport.value.sendCount == 0 && t.probe.transport.value.readyState == OPEN
            && t == s.(upgradeState := Upgrading, probe := t.probe)
  {}

  /** The answer to a pending poll that lets the client move on. */
  function Released(p: P.State): P.State {
    if p.writable then P.Send(p, [Packet(Noop, None)]) else p
  }

  lemma ProbeSent(opts: Options, w: W.State)
    requires OneSent(w, []) && w.sendCount == 0
    ensures var w' := W.Send(opts, W.Resume(opts, w), [PROBE_PONG]);
            OneSent(w', [PROBE_PONG]) && w'.readyState == w.readyState
  {}

  lemma Probed(opts: Options, s: State)
    requires s.ws.None? && s.polling.Some? && s.probe.transport.Some?
    requires OneSent(s.probe.transport.value, []) && s.probe.transport.value.sendCount == 0
    ensures var t := Apply(opts, s, PROBE);
            && t.probe.transport.Some? && OneSent(t.probe.transport.value, [PROBE_PONG])
            && t.probe.transport.value.readyState == s.probe.transport.value.readyState
            && t == s.(polling := Some(Released(s.polling.value)), probe := t.probe,
                       log := s.log.(events := s.log.events + [UpgradeStarted]))
  {
    ProbeDecodes();
    var w := s.probe.transport.value;
    ProbeSent(opts, w);
    assert W.Resume(opts, w) == w;
    assert Apply(opts, s, PROBE) == CandidatePacket(opts, Probing(s, w), Packet(Ping, Some(Text("probe"))));
  }

  lemma BacklogSent(opts: Options, w: W.State, ps: seq<Packet>)
    requires OneSent(w, [PROBE_PONG])
    ensures var w' := W.Send(opts, w, ps); w'.writable && w'.link == W.Connected && w'.frames == [PROBE_PONG] + ps
  {}

  lemma TakenOver(opts: Options, s: State)
    requires s.readyState == OPEN && s.ws.None? && s.polling.Some? && s.probe.transport.Some?
    requires OneSent(s.probe.transport.value, [PROBE_PONG]) && !s.out.closeOnDrain
    ensures var t := Apply(opts, s, UPGRADE);
            && t.readyState == OPEN && t.upgradeState == Upgraded && t.probe.transport.None?
            && t.polling == Some(P.Shut(s.polling.value))
            && t.ws.Some? && t.ws.value.link == W.Connected && t.ws.value.writable
            && t.ws.value.frames == [PROBE_PONG] + s.out.buffer
            && t.log.events == s.log.events + [UpgradeDone]
            && t.out.accepted == s.out.accepted
  {
    ProbeDecodes();
    var w := s.probe.transport.value;
    var s1 := Rebound(Probing(s, w), w);
    assert W.Resume(opts, w) == w;
    assert Apply(opts, s, UPGRADE) == Flush(opts, s1);
    BacklogSent(opts, w, s.out.buffer);
    if s.out.buffer == [] {
      assert [PROBE_PONG] + s.out.buffer == [PROBE_PONG];
    } else {
      assert Flush(opts, s1) == SendBuffer(opts, s1);
    }
  }

  lemma ThreeSteps(opts: Options, s: State, a: Step, b: Step, c: Step)
    ensures Run(opts, s, [a, b, c]) == Apply(opts, Apply(opts, Apply(opts, s, a), b), c)
  {
    assert [a, b, c][1..] == [b, c] && [b, c][1..] == [c] && [c][1..] == [];
    assert Run(opts, s, [a, b, c]) == Run(opts, Apply(opts, s, a), [b, c]);
    assert Run(opts, Apply(opts, s, a), [b, c]) == Run(opts, Apply(opts, Apply(opts, s, a), b), [c]);
    assert Run(opts, Apply(opts, Apply(opts, s, a), b), [c]) ==
           Run(opts, Apply(opts, Apply(opts, Apply(opts, s, a), b), c), []);
  }

  lemma UpgradeSteps(opts: Options, s: State, room: nat)
    requires Upgradable(s) && !s.out.closeOnDrain
    ensures var t := Apply(opts, Apply(opts, Apply(opts, s, UpgradeIn(room)), PROBE), UPGRADE);
            && t.readyState == OPEN && t.upgradeState == Upgraded
            && t.polling == Some(P.Shut(Released(s.polling.value)))
            && t.ws.Some? && t.ws.value.writable && t.ws.value.link == W.Connected
            && t.ws.value.frames == [PROBE_PONG] + s.out.buffer
            && t.log.events == s.log.events + [UpgradeStarted] + [UpgradeDone]
            && t.out.accepted == s.out.accepted
  {
    var s1 := Apply(opts, s, UpgradeIn(room));
    Requested(opts, s, room);
    Probed(opts, s1);
    TakenOver(opts, Apply(opts, s1, PROBE));
  }

  /**
   * Whenever a polling session that was never asked before is upgraded by request, probe
   * and upgrade packet, the pending poll is released with a noop, the reply to the probe
   * and then the whole backlog go out as frames, and nothing accepted is outstanding.
   */
  lemma UpgradeCompletes(opts: Options, b: Birth, steps: seq<Step>, room: nat)
    requires Upgradable(Life(opts, b, steps))
    ensures var s := Life(opts, b, steps);
            var t := Run(opts, s, [UpgradeIn(room), PROBE, UPGRADE]);
            && t.readyState == OPEN && t.upgradeState == Upgraded
            && t.polling == Some(P.Shut(Released(s.polling.value)))
            && t.ws.Some? && t.ws.value.writable && t.ws.value.frames == [PROBE_PONG] + s.out.buffer
            && t.log.events == s.log.events + [UpgradeStarted] + [UpgradeDone]
            && Delivered(t) == t.out.accepted == s.out.accepted
  {
    var s := Life(opts, b, steps);
    LifeInv(opts, b, steps);
    RunKeeps(opts, s, [UpgradeIn(room), PROBE, UPGRADE]);
    ThreeSteps(opts, s, UpgradeIn(room), PROBE, UPGRADE);
    UpgradeSteps(opts, s, room);
    NothingOutstanding(Run(opts, s, [UpgradeIn(room), PROBE, UPGRADE]));
  }

  lemma NothingOutstanding(t: State)
    requires Inv(t) && t.readyState == OPEN && t.ws.Some? && t.ws.value.writable && t.ws.value.link == W.Connected
    ensures Delivered(t) == t.out.accepted
  {
    assert t.out.lost == [] && t.out.buffer == [];
    assert Delivered(t) + [] + [] == Delivered(t);
  }

  /** The session after a takeover by `w`: what could be sent is on the wire, the rest still buffered. */
  predicate TakenOverBy(s: State, t: State, w: W.State) {
    && t.readyState == OPEN && t.upgradeState == Upgraded && t.probe.transport.None? && !t.probe.timeout
    && s.polling.Some? && t.polling == Some(P.Shut(s.polling.value))
    && t.ws.Some? && t.ws.value.link == W.Connected
    && t.ws.value.frames == (if w.writable then w.frames + s.out.buffer else w.frames)
    && t.out.buffer == (if w.writable then [] else s.out.buffer)
    && t.out.accepted == s.out.accepted && t.out.lost == s.out.lost
    && t.log.events == s.log.events + [UpgradeDone]
  }

  lemma FlushToCandidate(opts: Options, s: State, w: W.State)
    requires s.readyState == OPEN && s.ws.None? && s.polling.Some? && !s.out.closeOnDrain
    requires s.probe.transport == Some(w) && w.link == W.Connected
    ensures TakenOverBy(s, TakeOver(opts, s, w), w)
  {
    var s1 := Rebound(s, w);
    assert TakeOver(opts, s, w) == Flush(opts, s1);
    FramesAppend(w, opts, s.out.buffer);
    if w.writable && s.out.buffer != [] {
      assert Flush(opts, s1) == SendBuffer(opts, s1);
    } else {
      assert Flush(opts, s1) == s1 && w.frames + [] == w.frames;
    }
  }

  lemma UpgradePacketArrives(opts: Options, s: State, frame: RawData)
    requires s.readyState == OPEN && s.probe.transport.Some? && s.probe.transport.value.link == W.Connected
    requires Parser.DecodePacket(frame).kind == Upgrade
    ensures var w := W.Resume(opts, s.probe.transport.value);
            Apply(opts, s, ProbeFrameIn(frame)) == TakeOver(opts, Probing(s, w), w)
  {}

  /**
   * Whatever happened since the request, an upgrade packet that finds the session open and
   * its candidate's socket open completes the upgrade: the old transport is closed, the
   * backlog goes out behind the candidate's frames or waits for it to drain, nothing is lost.
   */
  lemma TakeOverDelivers(opts: Options, b: Birth, steps: seq<Step>, frame: RawData)
    requires var s := Life(opts, b, steps);
             s.readyState == OPEN && s.probe.transport.Some? && s.probe.transport.value.link == W.Connected
    requires Parser.DecodePacket(frame).kind == Upgrade
    ensures var s := Life(opts, b, steps);
            var t := Apply(opts, s, ProbeFrameIn(frame));
            && TakenOverBy(s, t, W.Resume(opts, s.probe.transport.value))
            && Delivered(t) + t.out.buffer == t.out.accepted
  {
    var s := Life(opts, b, steps);
    var w := W.Resume(opts, s.probe.transport.value);
    LifeInv(opts, b, steps);
    UpgradePacketArrives(opts, s, frame);
    FlushToCandidate(opts, Probing(s, w), w);
    StepKeeps(opts, s, ProbeFrameIn(frame));
    ConnectedOwesNothing(Apply(opts, s, ProbeFrameIn(frame)));
  }

  lemma ConnectedOwesNothing(t: State)
    requires Inv(t) && t.ws.Some? && t.ws.value.link == W.Connected
    ensures Delivered(t) + t.out.buffer == t.out.accepted
  {
    assert Delivered(t) + [] == Delivered(t);
  }

  /**
   * A candidate that says anything but the probe and the upgrade is closed, and once it
   * is gone the session is as before, but marked as upgrading with nothing to upgrade to.
   */
  lemma FailedProbeSticks(opts: Options, s: State, frame: RawData)
    requires s.upgradeState == Upgrading && s.probe.transport.Some? && s.probe.transport.value.link == W.Connected
    requires var p := Parser.DecodePacket(frame);
             p != Packet(Ping, Some(Text("probe"))) && p.kind != Upgrade && p.kind != Close
    ensures var failed := Apply(opts, s, ProbeFrameIn(frame));
            var t := Apply(opts, failed, ProbeClose);
            && failed.probe.transport == Some(W.Shut(W.Resume(opts, s.probe.transport.value))) && !failed.probe.timeout
            && Stuck(t) && t == s.(probe := t.probe)
  {
    var w := W.Resume(opts, s.probe.transport.value);
    assert Apply(opts, s, ProbeFrameIn(frame)) == CandidatePacket(opts, Probing(s, w), Parser.DecodePacket(frame));
  }

  /**
   * A candidate that does not finish in time is closed; the session goes on as before, and
   * cannot be upgraded again.
   */
  lemma LateUpgradeSticks(opts: Options, s: State)
    requires s.upgradeState == Upgrading && s.probe.timeout && s.probe.transport.Some?
    requires s.probe.transport.value.readyState == OPEN && s.probe.transport.value.writable
    ensures var late := Apply(opts, s, UpgradeTimeout);
            var t := Apply(opts, late, ProbeClose);
            && late.probe.transport == Some(W.Shut(s.probe.transport.value)) && !late.probe.timeout
            && late.probe.transport.value.link != W.Connected
            && Stuck(t) && t == s.(probe := t.probe)
  {
    assert Apply(opts, s, UpgradeTimeout) == UpgradeTimesOut(s);
  }

  /** A poll that comes in while the session is probed, with nothing to send, is released by the next tick. */
  lemma TickReleasesPoll(opts: Options, b: Birth, steps: seq<Step>)
    requires var s := Life(opts, b, steps);
             && s.readyState == OPEN && s.ws.None? && s.polling.Some? && s.polling.value.pending.None?
             && (s.probe.noopTimer || s.probe.strayNoopTimers > 0) && s.out.buffer == []
    ensures var s := Life(opts, b, steps);
            var t := Apply(opts, Apply(opts, s, PollIn), NoopTimer);
            && t.polling.value.settled ==
               s.polling.value.settled + [P.Answered(s.polling.value.polls, [Packet(Noop, None)])]
            && t.polling.value.pending.None? && t.readyState == OPEN && t.log.events == s.log.events
  {
    var s := Life(opts, b, steps);
    LifeInv(opts, b, steps);
    PollHeld(opts, s);
    HeldReleased(opts, Apply(opts, s, PollIn));
  }

  lemma PollHeld(opts: Options, s: State)
    requires s.readyState == OPEN && s.out.buffer == []
    requires s.ws.None? && s.polling.Some? && s.polling.value.pending.None?
    ensures Apply(opts, s, PollIn) == s.(polling := Some(P.Accept(s.polling.value)))
  {}

  lemma HeldReleased(opts: Options, s: State)
    requires s.ws.None? && s.polling.Some? && s.polling.value.writable
    requires s.probe.noopTimer || s.probe.strayNoopTimers > 0
    ensures Apply(opts, s, NoopTimer) == s.(polling := Some(P.Send(s.polling.value, [Packet(Noop, None)])))
  {}

  // ----- request, probe and timeout, in any run -----

  /** The candidate can be written to once input has arrived on it. */
  predicate WritesAfterInput(opts: Options, w: W.State) {
    && w.link == W.Connected
    && (w.writable || (opts.backpressureThreshold > 0 && w.buffered <= opts.backpressureThreshold))
  }

  /** The probe is answered, a pending poll gets a noop, the noop timer runs and the application is told. */
  ghost predicate AnswersProbe(opts: Options, s: State, t: State) {
    && t == s.(probe := t.probe, polling := t.polling, log := s.log.(events := s.log.events + [UpgradeStarted]))
    && s.probe.transport.Some? && t.probe.transport.Some? && t.probe.timeout == s.probe.timeout && t.probe.noopTimer
    && t.probe.strayNoopTimers == s.probe.strayNoopTimers + (if s.probe.noopTimer then 1 else 0)
    && t.probe.transport.value.frames ==
       s.probe.transport.value.frames +
       (if WritesAfterInput(opts, s.probe.transport.value) then [Packet(Pong, Some(Text("probe")))] else [])
    && (match s.polling
        case None => t.polling.None?
        case Some(p) =>
          if s.ws.None? && p.pending.Some? then
            && t.polling.Some? && t.polling.value.pending.None?
            && t.polling.value.settled == p.settled + [P.Answered(p.pending.value, [Packet(Noop, None)])]
          else t.polling == s.polling)
  }

  lemma CandidateAnswers(opts: Options, w: W.State)
    ensures W.Send(opts, W.Resume(opts, w), [PROBE_PONG]).frames ==
            w.frames + (if WritesAfterInput(opts, w) then [Packet(Pong, Some(Text("probe")))] else [])
  {
    assert w.frames + [] == w.frames;
  }

  lemma ProbeArrives(opts: Options, s: State, frame: RawData)
    requires Inv(s) && s.probe.transport.Some? && s.probe.transport.value.link != W.Disconnected
    requires Parser.DecodePacket(frame) == Packet(Ping, Some(Text("probe")))
    ensures AnswersProbe(opts, s, CandidateFrame(opts, s, frame))
  {
    CandidateAnswers(opts, s.probe.transport.value);
  }

  lemma ProbeFrameStep(opts: Options, s: State, frame: RawData)
    ensures Apply(opts, s, ProbeFrameIn(frame)) == CandidateFrame(opts, s, frame)
  {}

  /** In every run a probe on a candidate is answered with a pong that says "probe", unless the candidate is paused. */
  lemma ProbeIsAnswered(opts: Options, b: Birth, steps: seq<Step>, frame: RawData)
    requires var s := Life(opts, b, steps);
             s.probe.transport.Some? && s.probe.transport.value.link != W.Disconnected
    requires Parser.DecodePacket(frame) == Packet(Ping, Some(Text("probe")))
    ensures var s := Life(opts, b, steps); AnswersProbe(opts, s, Apply(opts, s, ProbeFrameIn(frame)))
  {
    LifeInv(opts, b, steps);
    ProbeArrives(opts, Life(opts, b, steps), frame);
    ProbeFrameStep(opts, Life(opts, b, steps), frame);
  }

  /**
   * Of the requests to upgrade, the first that finds a live session that polls is taken up;
   * the others change nothing.
   */
  lemma FirstRequestStarts(opts: Options, s: State, room: nat)
    ensures var t := Apply(opts, s, UpgradeIn(room));
            if s.readyState != CLOSED && s.ws.None? && s.upgradeState == NotUpgraded then
              && t == s.(upgradeState := Upgrading, probe := t.probe)
              && t.probe.timeout && t.probe.noopTimer == s.probe.noopTimer
              && t.probe.strayNoopTimers == s.probe.strayNoopTimers && t.probe.transport.Some?
              && var w := t.probe.transport.value;
                 w.writable && w.link == W.Connected && w.readyState == OPEN && w.frames == [] && w.buffered == 0
            else t == s
  {}

  /** The upgrade timeout closes a candidate only if it is still open and not paused. */
  lemma TimeoutSparesPaused(opts: Options, s: State)
    requires s.probe.transport.Some?
    ensures var t, w := Apply(opts, s, UpgradeTimeout), s.probe.transport.value;
            && t == s.(probe := s.probe.(timeout := false, transport := t.probe.transport)) && t.probe.transport.Some?
            && t.probe.transport.value ==
               (if s.probe.timeout && w.writable && w.readyState != CLOSING && w.readyState != CLOSED then
                  w.(readyState := CLOSING, link := if w.link == W.Connected then W.Disconnecting else w.link)
                else w)
  {}

  /** A candidate's close packet has Bun close its socket; the upgrade waits until that is done. */
  lemma CandidateAsksToClose(opts: Options, s: State, frame: RawData)
    requires s.probe.transport.Some? && Parser.DecodePacket(frame).kind == Close
    ensures var t := Apply(opts, s, ProbeFrameIn(frame));
            && t == s.(probe := s.probe.(transport := t.probe.transport)) && t.probe.transport.Some?
            && t.probe.transport.value.frames == s.probe.transport.value.frames
            && t.probe.transport.value.link ==
               (if s.probe.transport.value.link == W.Connected then W.Disconnecting else s.probe.transport.value.link)
  {
    ProbeFrameStep(opts, s, frame);
  }
}
