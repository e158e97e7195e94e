/** How a handshake ends: a refusal, or a socket whose client is told about its session. */
module ServerWelcome {
  import opened Packets
  import opened Transport
  import opened ServerState
  import opened ServerSteps
  import opened ServerTheorems
  import opened ServerBudgets
  import H = Heartbeat
  import P = PollingTransport
  import S = Session
  import SI = SessionInvariants
  import SR = SessionRefinement
  import W = WebSocketTransport

  // ----- a session's first packet -----

  /** A session that has just opened, with its open packet buffered or on the wire. */
  predicate Opening(opts: Options, r: Request, s: S.State) {
    var open := [Packet(Open, Some(Text(r.text)))];
    && s.readyState == OPEN && s.log.events == [S.Opened] && s.out.accepted == open && !s.meter.packetCreate
    && s.attached && !s.out.closeOnDrain
    && s.heart.now == r.now && s.heart.interval == H.Armed(r.now + opts.pingInterval)
    && (if r.upgrade then
          && s.polling.None? && s.ws.Some? && s.ws.value.link == W.Connected
          && s.ws.value.frames == open && s.out.buffer == []
        else s.ws.None? && s.polling == Some(P.Created) && s.out.buffer == open)
  }

  lemma OpensOnPolling(opts: Options, r: Request)
    requires !r.upgrade
    ensures Opening(opts, r, S.Start(opts, r.upgrade, r.room, r.text, r.now))
  {}

  lemma OpensOnWebSocket(opts: Options, r: Request)
    requires r.upgrade
    ensures Opening(opts, r, S.Start(opts, r.upgrade, r.room, r.text, r.now))
  {
    var s := S.Fresh(opts, true, r.room, r.now).(readyState := OPEN);
    var p := Packet(Open, Some(Text(r.text)));
    assert SR.Same(S.SendPacket(opts, s, p), S.SendRaw(opts, s, p)) by {
      SR.SendPacketOnWebSocket(opts, s, p);
    }
    SI.FramesAppend(s.ws.value, opts, [p]);
    assert [] + [p] == [p];
  }

  /** A session whose client has been told about it: its request was answered with the open packet. */
  predicate Greeted(opts: Options, r: Request, watched: bool, s: S.State) {
    var open := [Packet(Open, Some(Text(r.text)))];
    && s.readyState == OPEN && s.log.events == [S.Opened] && s.meter.packetCreate == watched
    && s.out.accepted == open && s.out.buffer == []
    && s.heart.now == r.now && s.heart.interval == H.Armed(r.now + opts.pingInterval)
    && (if r.upgrade then
          && s.polling.None? && s.ws.Some? && s.ws.value.link == W.Connected && s.ws.value.frames == open
        else
          && s.ws.None? && s.polling.Some? && s.polling.value.pending.None? && s.polling.value.polls == 1
          && s.polling.value.settled == [P.Answered(0, open)])
  }

  function Watched(s: S.State, watched: bool): S.State {
    s.(meter := s.meter.(packetCreate := watched))
  }

  lemma FirstPollIsAnswered(opts: Options, r: Request, s: S.State, watched: bool)
    requires !r.upgrade && Opening(opts, r, s)
    ensures Greeted(opts, r, watched, S.PollArrives(opts, Watched(s, watched)))
  {
    var s1 := Watched(s, watched).(polling := Some(P.Accept(P.Created)));
    SR.FlushIsSendBuffer(opts, s1);
    assert [] + [P.Answered(0, s.out.buffer)] == [P.Answered(0, s.out.buffer)];
  }

  lemma FirstFrameIsThere(opts: Options, r: Request, s: S.State, watched: bool)
    requires r.upgrade && Opening(opts, r, s)
    ensures Greeted(opts, r, watched, Watched(s, watched))
  {}

  // ----- the server's part -----

  /** A step that reports nothing is no business of the server's listeners. */
  lemma SilentMove(cfg: Config, s: State, id: Id, t: S.State)
    requires id in s.registry.sessions && t.log.events == s.registry.sessions[id].session.log.events
    ensures SocketMoves(cfg, s, id, t) == SetSession(s, id, t)
  {
    assert NewEvents(s.registry.sessions[id].session, t) == [];
  }

  lemma ListenStep(cfg: Config, s: State, id: Id)
    requires id in s.registry.sessions
    ensures SocketStep(cfg, s, id, S.EnablePacketCreate) ==
            SetSession(s, id, Watched(s.registry.sessions[id].session, true))
  {
    var c := s.registry.sessions[id];
    AfterEnabling(c);
    SilentMove(cfg, s, id, Watched(c.session, true));
  }

  lemma PollStep(cfg: Config, s: State, id: Id, t: S.State)
    requires id in s.registry.sessions
    requires var c := s.registry.sessions[id];
             t == S.PollArrives(c.opts, c.session) && t.log.events == c.session.log.events
    ensures SocketStep(cfg, s, id, S.PollIn) == SetSession(s, id, t)
  {
    SilentMove(cfg, s, id, t);
  }

  /** The socket's session is replaced, and nothing else. */
  ghost predicate OnlyMoved(s: State, s': State, id: Id) {
    && id in s.registry.sessions && id in s'.registry.sessions
    && s'.registry.clients == s.registry.clients && s'.metrics == s.metrics
    && s'.registry.sessions == s.registry.sessions[id := s'.registry.sessions[id]]
    && s'.registry.sessions[id].opts == s.registry.sessions[id].opts
  }

  lemma FirstStepsMove(cfg: Config, s: State, id: Id, poll: bool, t: S.State)
    requires id in s.registry.sessions
    requires var c := s.registry.sessions[id];
             var watched := if s.metricsEnabled then Watched(c.session, true) else c.session;
             && t == (if poll then S.PollArrives(c.opts, watched) else watched)
             && t.log.events == c.session.log.events
    ensures var s' := FirstSteps(cfg, s, id, poll);
            OnlyMoved(s, s', id) && s'.registry.sessions[id].session == t
  {
    var s1 := if s.metricsEnabled then SocketStep(cfg, s, id, S.EnablePacketCreate) else s;
    ListenStep(cfg, s, id);
    if poll {
      PollStep(cfg, s1, id, t);
    }
  }

  /** A handshake that ended in a session: its client is told, and no other socket is touched. */
  ghost predicate Welcomed(cfg: Config, s: State, s': State, r: Request) {
    && s'.registry.clients == s.registry.clients + {r.id}
    && r.id in s'.registry.sessions
    && s'.registry.sessions == s.registry.sessions[r.id := s'.registry.sessions[r.id]]
    && var c := s'.registry.sessions[r.id];
       && c.opts == cfg.options.(pingInterval := cfg.options.pingInterval * (if s.health.degraded then 2 else 1))
       && Greeted(c.opts, r, s.metricsEnabled, c.session)
  }

  lemma JoinedSteps(cfg: Config, s: State, s1: State, s': State, r: Request, c: Client)
    requires s1.registry.clients == s.registry.clients + {r.id}
    requires s1.registry.sessions == s.registry.sessions[r.id := c] && OnlyMoved(s1, s', r.id)
    requires c.opts == cfg.options.(pingInterval := cfg.options.pingInterval * (if s.health.degraded then 2 else 1))
    requires Greeted(c.opts, r, s.metricsEnabled, s'.registry.sessions[r.id].session)
    ensures Welcomed(cfg, s, s', r)
  {}

  lemma NewClientGreeted(cfg: Config, s: State, r: Request)
    ensures var c := NewClient(cfg, s, r);
            var watched := Watched(c.session, s.metricsEnabled);
            && Opening(c.opts, r, c.session)
            && Greeted(c.opts, r, s.metricsEnabled, if r.upgrade then watched else S.PollArrives(c.opts, watched))
  {
    var c := NewClient(cfg, s, r);
    if r.upgrade {
      OpensOnWebSocket(c.opts, r);
      FirstFrameIsThere(c.opts, r, c.session, s.metricsEnabled);
    } else {
      OpensOnPolling(c.opts, r);
      FirstPollIsAnswered(c.opts, r, c.session, s.metricsEnabled);
    }
  }

  lemma SettleWelcomes(cfg: Config, s: State, r: Request)
    ensures Welcomed(cfg, s, Settle(cfg, s, r, NewClient(cfg, s, r)), r)
  {
    var c := NewClient(cfg, s, r);
    var s1 := Join(cfg, s, r.id, r.upgrade, c);
    var watched := Watched(c.session, s.metricsEnabled);
    var t := if r.upgrade then watched else S.PollArrives(c.opts, watched);
    NewClientGreeted(cfg, s, r);
    JoinAdds(cfg, s, r.id, r.upgrade, c);
    assert s.metricsEnabled || watched == c.session;
    FirstStepsMove(cfg, s1, r.id, !r.upgrade, t);
    JoinedSteps(cfg, s, s1, FirstSteps(cfg, s1, r.id, !r.upgrade), r, c);
  }

  /** What becomes of the second half of a handshake. */
  function Outcome(s: State, r: Request): Verdict {
    if s.health.degraded && !r.upgrade then WebSocketOnly
    else if r.upgrade && !r.upgradeSucceeds then UpgradeFailed
    else Connected
  }

  ghost predicate Settles(cfg: Config, s: State, r: Request, s': State) {
    if Outcome(s, r) == Connected then Welcomed(cfg, s, s', r) else s' == s
  }

  lemma RegisterSettles(cfg: Config, s: State, r: Request)
    ensures var (s', verdict) := Register(cfg, s, r); Settles(cfg, s, r, s') && verdict == Outcome(s, r)
  {
    SettleWelcomes(cfg, s, r);
  }

  /**
   * In every run a handshake is screened for budget and capacity; one that passes is
   * refused in degraded mode unless it is a WebSocket's, fails when Bun does not upgrade it,
   * and otherwise ends in an OPEN session whose client has its open packet: in the response
   * to the handshake request, which was the first poll, or in the first frame. The ping
   * interval is doubled in degraded mode, packets are watched when metrics are read, and no
   * other socket is touched.
   */
  lemma HandshakeIsAnswered(cfg: Config, metricsEnabled: bool, steps: seq<Step>, address: Option<string>, r: Request)
    requires 0.0 <= cfg.degradationThreshold
    ensures var s := History(cfg, metricsEnabled, steps);
            var (s1, first) := Screen(cfg, s, address);
            var (s', verdict) := Handshake(cfg, s, address, r);
            && Screened(cfg, s, address, s1, first)
            && verdict == (if first == Passed then Outcome(s1, r) else first)
            && (if first == Passed then Settles(cfg, s1, r, s') else s' == s1)
            && (!cfg.hook && r.id !in s.registry.sessions ==> Apply(cfg, s, Shake(address, r)) == s')
  {
    var s := History(cfg, metricsEnabled, steps);
    HistoryKept(cfg, metricsEnabled, steps);
    ScreenScreens(cfg, s, address);
    RegisterSettles(cfg, Screen(cfg, s, address).0, r);
  }

  lemma LateStep(cfg: Config, s: State, r: Request)
    requires s.pending > 0 && r.id !in s.registry.sessions
    ensures Apply(cfg, s, ShakeEnds(r)) == Register(cfg, s.(pending := s.pending - 1), r).0
  {}

  /** With a hook the second half goes the same way, on the server as it is after the hook. */
  lemma LateHandshakeIsAnswered(cfg: Config, s: State, r: Request)
    requires s.pending > 0 && r.id !in s.registry.sessions
    ensures Settles(cfg, s.(pending := s.pending - 1), r, Apply(cfg, s, ShakeEnds(r)))
  {
    LateStep(cfg, s, r);
    RegisterSettles(cfg, s.(pending := s.pending - 1), r);
  }
}
