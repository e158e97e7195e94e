/** What holds of a session in every run, from its handshake on. */
module SessionTheorems {
  import opened Packets
  import opened Transport
  import opened Session
  import opened SessionInvariants
  import opened SessionSteps
  import opened SessionHeart
  import opened SessionRefinement
  import H = Heartbeat
  import P = PollingTransport
  import W = WebSocketTransport

  /** How a session comes about: the transport of the handshake request, and the text of the open packet. */
  datatype Birth = Birth(webSocket: bool, room: nat, handshake: string, now: int)

  function OpenPacket(b: Birth): Packet {
    Packet(Open, Some(Text(b.handshake)))
  }

  function Born(opts: Options, b: Birth): State {
    Start(opts, b.webSocket, b.room, b.handshake, b.now)
  }

  function Life(opts: Options, b: Birth, steps: seq<Step>): State {
    Run(opts, Born(opts, b), steps)
  }

  // ----- the start -----

  lemma FreshInv(opts: Options, b: Birth)
    ensures Inv(Fresh(opts, b.webSocket, b.room, b.now).(readyState := OPEN))
  {}

  lemma BornOpens(opts: Options, b: Birth)
    ensures Inv(Born(opts, b)) && Born(opts, b).readyState == OPEN
    ensures Born(opts, b).out.accepted == [OpenPacket(b)]
  {
    var s := Fresh(opts, b.webSocket, b.room, b.now).(readyState := OPEN);
    var s1 := SendPacket(opts, s, OpenPacket(b));
    FreshInv(opts, b);
    SendPacketKeeps(opts, s, OpenPacket(b));
    EmitKeeps(s1, Opened);
    HeartField(Emit(s1, Opened), Born(opts, b));
    SendPacketIsFlush(opts, s, OpenPacket(b));
    PushedKeepsBase(opts, s, OpenPacket(b));
    FlushKeeps(opts, Pushed(opts, s, OpenPacket(b)));
  }

  lemma BornBeats(opts: Options, b: Birth)
    ensures Beating(opts, Born(opts, b))
  {
    var s := Fresh(opts, b.webSocket, b.room, b.now).(readyState := OPEN);
    SendUntouched(opts, s, OpenPacket(b));
  }

  /** The first packet waits for the first poll, or is on the WebSocket already. */
  lemma BornTransport(opts: Options, b: Birth)
    ensures var s := Born(opts, b);
            && (s.ws.Some? <==> b.webSocket) && s.upgradeState == NotUpgraded
            && (!b.webSocket ==> s.polling == Some(P.Created))
  {
    var s := Fresh(opts, b.webSocket, b.room, b.now).(readyState := OPEN);
    FreshInv(opts, b);
    SendPacketKeeps(opts, s, OpenPacket(b));
    SendPacketIsFlush(opts, s, OpenPacket(b));
  }

  /** A poll that does not overlap another leaves an open session open. */
  lemma PollKeepsOpen(opts: Options, s: State)
    requires Inv(s) && s.readyState == OPEN && s.ws.None? && s.polling.Some? && s.polling.value.pending.None?
    ensures Apply(opts, s, PollIn).readyState == OPEN
  {
    PollAcceptedKeeps(opts, s);
  }

  lemma LifeInv(opts: Options, b: Birth, steps: seq<Step>)
    ensures Inv(Life(opts, b, steps)) && Progress(Born(opts, b), Life(opts, b, steps))
  {
    BornOpens(opts, b);
    RunKeeps(opts, Born(opts, b), steps);
  }

  lemma {:induction false} RunConcat(opts: Options, s: State, xs: seq<Step>, ys: seq<Step>)
    ensures Run(opts, s, xs + ys) == Run(opts, Run(opts, s, xs), ys)
    decreases |xs|
  {
    if xs == [] {
      assert xs + ys == ys;
    } else {
      assert (xs + ys)[1..] == xs[1..] + ys;
      RunConcat(opts, Apply(opts, s, xs[0]), xs[1..], ys);
    }
  }

  // ----- delivery -----

  lemma LedgerPrefix(out: Outbox, delivered: seq<Packet>)
    requires Ledger(out, delivered)
    ensures delivered <= out.accepted
    ensures out.lost == [] ==> out.accepted == delivered + out.buffer
  {
    assert delivered + out.lost + out.buffer == delivered + (out.lost + out.buffer);
    if out.lost == [] {
      assert delivered + out.lost == delivered;
    }
  }

  /**
   * In every run the session packets on the wire are a prefix of the packets accepted,
   * in order and without duplicates, the first one being "open". Together with what a
   * dead Bun socket swallowed and what is still buffered they are all of them, and
   * nothing is swallowed while the session polls or its Bun socket is open.
   */
  lemma DeliveryInOrder(opts: Options, b: Birth, steps: seq<Step>)
    ensures var s := Life(opts, b, steps);
            && s.out.accepted == Delivered(s) + s.out.lost + s.out.buffer
            && Delivered(s) <= s.out.accepted
            && (s.ws.None? || s.ws.value.link == W.Connected ==> s.out.accepted == Delivered(s) + s.out.buffer)
            && [OpenPacket(b)] <= s.out.accepted
  {
    LifeInv(opts, b, steps);
    BornOpens(opts, b);
    LedgerPrefix(Life(opts, b, steps).out, Delivered(Life(opts, b, steps)));
  }

  /**
   * A writable transport leaves no backlog, and a closing session waits for one on a
   * transport that is not writable.
   */
  lemma BacklogOnlyWhenBlocked(opts: Options, b: Birth, steps: seq<Step>)
    ensures var s := Life(opts, b, steps);
            && (s.readyState != CLOSED && Writable(s) ==> s.out.buffer == [])
            && (s.readyState == CLOSING ==> s.out.buffer != [] && !Writable(s))
            && (s.polling.Some? ==> (s.polling.value.writable <==> s.polling.value.pending.Some?))
  {
    LifeInv(opts, b, steps);
  }

  // ----- life cycle -----

  /**
   * States only move forward and histories only grow; "close" is reported once, when
   * the session is CLOSED; afterwards only an orphaned probe can still be reported;
   * and input is heard by OPEN sessions alone.
   */
  lemma LifeCycle(opts: Options, b: Birth, steps: seq<Step>, more: seq<Step>)
    ensures var s, t := Life(opts, b, steps), Life(opts, b, steps + more);
            && Progress(s, t)
            && Closings(t.log.events) == (if t.readyState == CLOSED then 1 else 0)
            && ClosedIsFinal(t.log.events)
            && (s.readyState != OPEN ==> Deaf(s, t) && t.readyState != OPEN)
            && t.readyState != OPENING
  {
    var s := Life(opts, b, steps);
    LifeInv(opts, b, steps);
    LifeInv(opts, b, steps + more);
    BornOpens(opts, b);
    RunConcat(opts, Born(opts, b), steps, more);
    RunKeeps(opts, s, more);
    if s.readyState != OPEN {
      RunDeaf(opts, s, more);
    }
  }

  /** A session changes transport at most once, from polling to WebSocket, and reports it once. */
  lemma OneUpgrade(opts: Options, b: Birth, steps: seq<Step>, more: seq<Step>)
    ensures var s, t := Life(opts, b, steps), Life(opts, b, steps + more);
            && UpgradeRank(s.upgradeState) <= UpgradeRank(t.upgradeState)
            && (s.ws.Some? ==> t.ws.Some?)
            && (s.ws.None? && t.ws.Some? ==>
               s.polling.Some? && s.upgradeState != Upgraded && t.upgradeState == Upgraded)
            && Upgrades(t.log.events) == (if t.polling.Some? && t.ws.Some? then 1 else 0)
            && (Stuck(s) ==> Stuck(t) && t.ws.None?)
  {
    var s := Life(opts, b, steps);
    LifeInv(opts, b, steps);
    LifeInv(opts, b, steps + more);
    RunConcat(opts, Born(opts, b), steps, more);
    RunKeeps(opts, s, more);
  }

  // ----- closing gracefully -----

  lemma ForcedCloseSentAll(s: State)
    requires Inv(s) && ForciblyClosed(s.log.events)
    ensures s.out.accepted == Delivered(s) + s.out.lost
  {
    assert Delivered(s) + s.out.lost + [] == Delivered(s) + s.out.lost;
  }

  /** From close() on, nothing more is accepted, and a forced close leaves nothing unsent. */
  lemma GracefulClose(opts: Options, b: Birth, steps: seq<Step>, more: seq<Step>)
    requires Life(opts, b, steps).readyState == OPEN
    ensures var s := Life(opts, b, steps);
            var t := Run(opts, Apply(opts, s, DoClose), more);
            && (t.readyState == CLOSING || t.readyState == CLOSED)
            && t.out.accepted == s.out.accepted
            && (t.readyState == CLOSING ==> t.out.buffer != [])
            && (ForciblyClosed(t.log.events) ==> s.out.accepted == Delivered(t) + t.out.lost)
            && (s.out.buffer == [] <==> Apply(opts, s, DoClose).readyState == CLOSED)
  {
    var s := Life(opts, b, steps);
    LifeInv(opts, b, steps);
    CloseSessionKeeps(s);
    CloseAcceptsNothing(s);
    ClosingRun(opts, CloseSession(s), more);
  }

  lemma ClosingRun(opts: Options, s: State, steps: seq<Step>)
    requires Inv(s) && (s.readyState == CLOSING || s.readyState == CLOSED)
    ensures var t := Run(opts, s, steps);
            && (t.readyState == CLOSING || t.readyState == CLOSED)
            && t.out.accepted == s.out.accepted
            && (t.readyState == CLOSING ==> t.out.buffer != [])
            && (ForciblyClosed(t.log.events) ==> t.out.accepted == Delivered(t) + t.out.lost)
  {
    RunKeeps(opts, s, steps);
    var t := Run(opts, s, steps);
    if ForciblyClosed(t.log.events) {
      ForcedCloseSentAll(t);
    }
  }

  lemma CloseAcceptsNothing(s: State)
    ensures CloseSession(s).out.accepted == s.out.accepted
    ensures s.readyState == OPEN ==> (CloseSession(s).readyState == CLOSED <==> s.out.buffer == [])
    ensures s.readyState == OPEN ==> !Accepting(CloseSession(s))
  {}

  // ----- heartbeat -----

  /** The session has not waited for a pong beyond the deadline, and a timer is armed that ends the wait in time. */
  predicate OnTime(opts: Options, h: H.State) {
    var deadline := h.lastPong + opts.pingInterval + opts.pingTimeout;
    && h.now <= deadline
    && (|| (h.interval.Armed? && h.interval.at + opts.pingTimeout <= deadline)
        || (h.timeout.Some? && h.timeout.value.Armed? && h.timeout.value.at <= deadline))
  }

  lemma LifeBeats(opts: Options, b: Birth, steps: seq<Step>)
    ensures Beating(opts, Life(opts, b, steps))
  {
    BornOpens(opts, b);
    BornBeats(opts, b);
    RunSustained(opts, Born(opts, b), steps);
  }

  lemma AliveIsOnTime(opts: Options, h: H.State)
    requires H.Alive(opts, h)
    ensures OnTime(opts, h)
  {}

  /** Whatever pongs arrive, a session that is not CLOSED is on time. */
  lemma HeartbeatDeadline(opts: Options, b: Birth, steps: seq<Step>)
    ensures var s := Life(opts, b, steps); s.readyState != CLOSED ==> OnTime(opts, s.heart)
  {
    LifeBeats(opts, b, steps);
    if Life(opts, b, steps).readyState != CLOSED {
      AliveIsOnTime(opts, Life(opts, b, steps).heart);
    }
  }

  /** Without an accepted pong, time cannot pass the deadline and find the session alive. */
  lemma SilentSessionCloses(opts: Options, b: Birth, steps: seq<Step>, more: seq<Step>)
    requires var s, t := Life(opts, b, steps), Life(opts, b, steps + more);
             && Beats(s.log.events) == Beats(t.log.events)
             && t.heart.now > s.heart.lastPong + opts.pingInterval + opts.pingTimeout
    ensures Life(opts, b, steps + more).readyState == CLOSED
  {
    var s := Life(opts, b, steps);
    LifeInv(opts, b, steps);
    RunConcat(opts, Born(opts, b), steps, more);
    RunSustained(opts, s, more);
    HeartbeatDeadline(opts, b, steps + more);
  }

  lemma {:induction false} BeatsHeard(es: seq<Event>)
    ensures Beats(Heard(es)) == Beats(es)
  {
    if es != [] {
      BeatsHeard(es[..|es| - 1]);
      var last := es[|es| - 1];
      BeatsAppend(Heard(es[..|es| - 1]), last);
      assert Heard(es[..|es| - 1]) + [] == Heard(es[..|es| - 1]);
    }
  }

  /** A session that was asked to close hears no pong any more, and is CLOSED once the clock passes its deadline. */
  lemma ClosingSessionCloses(opts: Options, b: Birth, steps: seq<Step>, more: seq<Step>)
    requires var s, t := Life(opts, b, steps), Life(opts, b, steps + more);
             && s.readyState == CLOSING
             && t.heart.now > s.heart.lastPong + opts.pingInterval + opts.pingTimeout
    ensures Life(opts, b, steps + more).readyState == CLOSED
  {
    var s, t := Life(opts, b, steps), Life(opts, b, steps + more);
    LifeInv(opts, b, steps);
    RunConcat(opts, Born(opts, b), steps, more);
    RunDeaf(opts, s, more);
    BeatsHeard(s.log.events);
    BeatsHeard(t.log.events);
    SilentSessionCloses(opts, b, steps, more);
  }

  // ----- shortcuts -----

  /** Over all runs the shortcuts change nothing but the packets that observers see. */
  lemma ShortcutsAreInvisible(opts: Options, b: Birth, steps: seq<Step>)
    ensures Same(Life(opts, b, steps), PlainRun(opts, Born(opts, b), steps))
  {
    BornOpens(opts, b);
    RunIsPlain(opts, Born(opts, b), Born(opts, b), steps);
  }

  // ----- writing -----

  /** A message was accepted, and shown first if packets are watched; only a session that closes takes none. */
  predicate Accepts(opts: Options, s: State, t: State, data: RawData) {
    && t.readyState == s.readyState && t.log.events == s.log.events
    && (if s.readyState == OPEN then
          && t.out.accepted == s.out.accepted + [Packet(Message, Some(data))]
          && t.meter.messagesSent == s.meter.messagesSent + 1
          && t.meter.bytesSent == s.meter.bytesSent + opts.byteSize(data)
          && (s.meter.packetCreate ==> s.log.trace + [PacketCreated(Packet(Message, Some(data)))] <= t.log.trace)
        else t == s)
  }

  lemma FlushShows(opts: Options, s: State)
    ensures s.log.trace <= Flush(opts, s).log.trace && Flush(opts, s).meter == s.meter
  {
    SendBufferShows(opts, s);
    ClosingShows(SendBuffer(opts, s));
  }

  lemma SendBufferShows(opts: Options, s: State)
    ensures s.log.trace <= SendBuffer(opts, s).log.trace && SendBuffer(opts, s).meter == s.meter
  {}

  lemma ClosingShows(s: State)
    ensures OnDrained(s).log.trace == s.log.trace && OnDrained(s).meter == s.meter
  {}

  lemma WriteCounts(opts: Options, s: State, data: RawData)
    requires s.readyState == OPEN
    ensures var t := SendPacket(opts, s, Packet(Message, Some(data)));
            && t.meter.messagesSent == s.meter.messagesSent + 1
            && t.meter.bytesSent == s.meter.bytesSent + opts.byteSize(data)
            && (s.meter.packetCreate ==> s.log.trace + [PacketCreated(Packet(Message, Some(data)))] <= t.log.trace)
  {
    var p := Packet(Message, Some(data));
    SendPacketIsFlush(opts, s, p);
    FlushShows(opts, Pushed(opts, s, p));
  }

  lemma WriteIsAccepted(opts: Options, s: State, data: RawData)
    requires Inv(s) && s.readyState != OPENING
    ensures Accepts(opts, s, Write(opts, s, data), data)
  {
    WriteKeeps(opts, s, data);
    WriteIsBuffered(opts, s, data);
    if s.readyState == OPEN {
      WriteTakes(opts, s, data);
      WriteCounts(opts, s, data);
      if s.meter.packetCreate {
        WatchedWrite(opts, s, data);
      }
    }
  }

  lemma WatchedWrite(opts: Options, s: State, data: RawData)
    requires s.meter.packetCreate && Accepting(s)
    ensures Write(opts, s, data) == SendPacket(opts, s, Packet(Message, Some(data)))
  {}

  lemma WriteStepIs(opts: Options, s: State, data: RawData)
    ensures Apply(opts, s, DoWrite(data)) == Write(opts, s, data)
  {}

  /** In every run write() on an OPEN session accepts the message and counts it; on one that closes it does nothing. */
  lemma WritesAreAccepted(opts: Options, b: Birth, steps: seq<Step>, data: RawData)
    ensures var s := Life(opts, b, steps); Accepts(opts, s, Apply(opts, s, DoWrite(data)), data)
  {
    BornOpens(opts, b);
    LifeInv(opts, b, steps);
    WriteIsAccepted(opts, Life(opts, b, steps), data);
    WriteStepIs(opts, Life(opts, b, steps), data);
  }

  // ----- overlapping polls -----

  /** A second poll ends the session: the pending one gets the close packet, the second a 400. */
  lemma OverlapEndsSession(opts: Options, b: Birth, steps: seq<Step>)
    requires var s := Life(opts, b, steps);
             s.readyState != CLOSED && s.ws.None? && s.polling.Some? && s.polling.value.pending.Some?
    ensures var s := Life(opts, b, steps);
            var t := Apply(opts, s, PollIn);
            var p := s.polling.value;
            && t.readyState == CLOSED && t.log.events == s.log.events + [Closed(TransportError)]
            && t.polling.value.settled ==
               p.settled + [P.Answered(p.pending.value, [Packet(Close, None)]), P.Refused(p.polls)]
  {
    LifeInv(opts, b, steps);
    OverlapReplies(opts, Life(opts, b, steps));
  }

  lemma OverlapReplies(opts: Options, s: State)
    requires Inv(s) && s.readyState != CLOSED && s.ws.None? && s.polling.value.pending.Some?
    ensures var t := Apply(opts, s, PollIn);
            var p := s.polling.value;
            && t.readyState == CLOSED && t.log.events == s.log.events + [Closed(TransportError)]
            && t.polling.value.settled ==
               p.settled + [P.Answered(p.pending.value, [Packet(Close, None)]), P.Refused(p.polls)]
  {
    var p := s.polling.value;
    var s1 := TransportFailed(s);
    assert Apply(opts, s, PollIn) == PollArrives(opts, s);
    assert s1.polling == Some(P.Shut(p));
    assert P.Shut(p).settled == p.settled + [P.Answered(p.pending.value, [Packet(Close, None)])];
    assert P.Shut(p).polls == p.polls;
  }
}
