/** What every step of the server keeps. */
module ServerInvariants {
  import opened Packets
  import opened Transport
  import opened ServerState
  import S = Session
  import SI = SessionInvariants
  import SS = SessionSteps
  import M = Metrics

  // ----- sockets and counters -----

  ghost predicate Sound(r: Registry) {
    forall id | id in r.sessions :: SI.Inv(r.sessions[id].session)
  }

  predicate Live(r: Registry, id: Id) {
    id in r.sessions && r.sessions[id].session.readyState != CLOSED
  }

  /** A socket is in the clients map exactly while it is not CLOSED. */
  ghost predicate Registered(r: Registry) {
    forall id :: id in r.clients <==> Live(r, id)
  }

  /** The clients on a WebSocket, and the others. */
  function Sockets(r: Registry): set<Id> {
    set id | id in r.clients && OnWebSocket(r, id)
  }

  function Pollers(r: Registry): set<Id> {
    set id | id in r.clients && !OnWebSocket(r, id)
  }

  /** Every socket, closed ones too, that moved from polling to a WebSocket. */
  function Switched(r: Registry): set<Id> {
    set id | id in r.sessions && r.sessions[id].session.polling.Some? && r.sessions[id].session.ws.Some?
  }

  predicate Counted(r: Registry, m: M.State) {
    && m.pollingCount == |Pollers(r)| && m.websocketCount == |Sockets(r)|
    && m.connections == m.disconnections + |r.clients| == |r.sessions|
    && m.upgrades == |Switched(r)|
  }

  lemma PollersAndSockets(r: Registry)
    ensures |Pollers(r)| + |Sockets(r)| == |r.clients|
  {
    assert Pollers(r) + Sockets(r) == r.clients;
    assert Pollers(r) !! Sockets(r);
  }

  // ----- degradation -----

  /** The flag is what the load says, and the events alternate, starting with true. */
  predicate Watched(cfg: Config, count: nat, h: Health) {
    && (h.degraded <==> Loaded(cfg, count))
    && (h.degraded <==> |h.degradations| % 2 == 1)
    && forall i | 0 <= i < |h.degradations| :: h.degradations[i] <==> i % 2 == 0
  }

  /** Sockets admitted in degraded mode are WebSockets, with a doubled ping interval. */
  ghost predicate Admitted(cfg: Config, admissions: seq<Admission>) {
    forall i | 0 <= i < |admissions| ::
      && (admissions[i].degraded ==> admissions[i].webSocket)
      && admissions[i].opts == SocketOptions(cfg, admissions[i].degraded)
  }

  lemma UpdateKeepsWatched(cfg: Config, s: State)
    requires forall i | 0 <= i < |s.health.degradations| :: s.health.degradations[i] <==> i % 2 == 0
    requires s.health.degraded <==> |s.health.degradations| % 2 == 1
    requires !Watching(cfg) ==> !s.health.degraded
    ensures var t := UpdateDegradation(cfg, s);
            Watched(cfg, |s.registry.clients|, t.health) && t == s.(health := t.health)
  {}

  // ----- countdowns -----

  /** The countdown waits for those of its first sockets that are still there, and resolves when none is. */
  predicate Counting(c: Countdown, clients: set<Id>, ids: set<Id>) {
    && c.initial <= ids
    && c.listening == c.initial * clients
    && c.remaining == |c.listening|
    && c.resolved == (if c.listening == {} then 1 else 0)
  }

  predicate AllCounting(cs: seq<Countdown>, clients: set<Id>, ids: set<Id>) {
    cs == [] || (AllCounting(cs[..|cs| - 1], clients, ids) && Counting(cs[|cs| - 1], clients, ids))
  }

  lemma TickKeepsCounting(c: Countdown, clients: set<Id>, ids: set<Id>, id: Id)
    requires Counting(c, clients, ids) && id in clients
    ensures Counting(Tick(c, id), clients - {id}, ids)
  {
    assert c.initial * (clients - {id}) == c.initial * clients - {id};
  }

  lemma {:induction false} TickAllKeepsCounting(cs: seq<Countdown>, clients: set<Id>, ids: set<Id>, id: Id)
    requires AllCounting(cs, clients, ids) && id in clients
    ensures AllCounting(TickAll(cs, id), clients - {id}, ids)
    ensures |TickAll(cs, id)| == |cs|
  {
    if cs != [] {
      var before, last := cs[..|cs| - 1], cs[|cs| - 1];
      TickAllKeepsCounting(before, clients, ids, id);
      TickKeepsCounting(last, clients, ids, id);
      assert TickAll(cs, id)[..|cs| - 1] == TickAll(before, id);
    }
  }

  /** A new socket, with a new id, is none of the countdowns' business. */
  lemma {:induction false} NewcomerKeepsCounting(cs: seq<Countdown>, clients: set<Id>, ids: set<Id>, id: Id)
    requires AllCounting(cs, clients, ids) && id !in ids && clients <= ids
    ensures AllCounting(cs, clients + {id}, ids + {id})
  {
    if cs != [] {
      NewcomerKeepsCounting(cs[..|cs| - 1], clients, ids, id);
      var c := cs[|cs| - 1];
      assert c.initial * (clients + {id}) == c.initial * clients;
    }
  }

  // ----- handshake budgets -----

  function Occurrences(window: seq<Option<string>>, ip: Option<string>): nat {
    if window == [] then 0
    else Occurrences(window[..|window| - 1], ip) + (if window[|window| - 1] == ip then 1 else 0)
  }

  /** The sum of all counts. */
  ghost function Total(counts: map<string, nat>): nat
    decreases |counts|
  {
    if counts == map[] then 0
    else
      var ip :| ip in counts;
      counts[ip] + Total(counts - {ip})
  }

  lemma {:induction false} TotalRemove(counts: map<string, nat>, ip: string)
    requires ip in counts
    ensures Total(counts) == counts[ip] + Total(counts - {ip})
    decreases |counts|
  {
    var first :| first in counts && Total(counts) == counts[first] + Total(counts - {first});
    if first != ip {
      TotalRemove(counts - {first}, ip);
      TotalRemove(counts - {ip}, first);
      assert counts - {first} - {ip} == counts - {ip} - {first};
    }
  }

  lemma TotalGrows(counts: map<string, nat>, ip: string)
    ensures Total(counts[ip := CountOf(counts, ip) + 1]) == Total(counts) + 1
  {
    var more := counts[ip := CountOf(counts, ip) + 1];
    TotalRemove(more, ip);
    assert more - {ip} == counts - {ip};
    if ip in counts {
      TotalRemove(counts, ip);
    } else {
      assert counts - {ip} == counts;
    }
  }

  /**
   * Tokens are what the window left of them; each address has spent its own count, and
   * no more than its share; all counts and the unknown addresses make up the window.
   */
  ghost predicate Budgeted(cfg: Config, b: Budget) {
    && (cfg.maxHandshakesPerSecond > 0 ==> b.tokens == cfg.maxHandshakesPerSecond - |b.window| && b.tokens >= 0)
    && |b.window| == Total(b.ipCounts) + Occurrences(b.window, None)
    && (forall ip :: CountOf(b.ipCounts, ip) == Occurrences(b.window, Some(ip)))
    && (forall ip :: CountOf(b.ipCounts, ip) <= cfg.maxHandshakesPerIp)
  }

  // ----- the whole -----

  /** What the server knows of its sockets. */
  ghost predicate Outer(cfg: Config, s: State) {
    && Registered(s.registry)
    && Counted(s.registry, s.metrics)
    && Watched(cfg, |s.registry.clients|, s.health)
    && AllCounting(s.countdowns, s.registry.clients, s.registry.sessions.Keys)
  }

  ghost predicate Inv(cfg: Config, s: State) {
    Sound(s.registry) && Outer(cfg, s) && Admitted(cfg, s.registry.admissions) && Budgeted(cfg, s.budget)
  }

  // ----- the events of one step -----

  lemma CountsSplit(es: seq<S.Event>, fs: seq<S.Event>)
    ensures SI.Closings(es + fs) == SI.Closings(es) + SI.Closings(fs)
    ensures SI.Upgrades(es + fs) == SI.Upgrades(es) + SI.Upgrades(fs)
  {
    if fs == [] {
      assert es + fs == es;
    } else {
      assert (es + fs)[..|es + fs| - 1] == es + fs[..|fs| - 1];
      CountsSplit(es, fs[..|fs| - 1]);
    }
  }

  lemma {:induction false} AfterClose(es: seq<S.Event>, fs: seq<S.Event>)
    requires SI.ClosedIsFinal(es + fs) && SI.Closings(es) > 0
    ensures SI.Closings(fs) == 0 && SI.Upgrades(fs) == 0
  {
    if fs != [] {
      var before := fs[..|fs| - 1];
      assert (es + fs)[..|es + fs| - 1] == es + before;
      AfterClose(es, before);
      CountsSplit(es, before);
    }
  }

  lemma NewEventsFollow(s: S.State, t: S.State)
    requires s.log.events <= t.log.events
    ensures t.log.events == s.log.events + NewEvents(s, t)
  {}

  lemma ReportedDifference(s: S.State, t: S.State)
    requires SI.Reported(s) && SI.Reported(t) && s.log.events <= t.log.events
    requires s.readyState == CLOSED ==> t.readyState == CLOSED
    ensures var es := NewEvents(s, t);
            && SI.Closings(es) == (if s.readyState != CLOSED && t.readyState == CLOSED then 1 else 0)
            && (s.readyState == CLOSED ==> SI.Upgrades(es) == 0)
            && SI.Upgrades(t.log.events) == SI.Upgrades(s.log.events) + SI.Upgrades(es)
  {
    var es := NewEvents(s, t);
    NewEventsFollow(s, t);
    CountsSplit(s.log.events, es);
    if s.readyState == CLOSED {
      AfterClose(s.log.events, es);
    }
  }

  /** What a step of a session reports tells how its life goes on. */
  lemma EventsTell(s: S.State, t: S.State)
    requires SI.Inv(s) && SI.Inv(t) && SI.Progress(s, t)
    ensures var es := NewEvents(s, t);
            && SI.Closings(es) == (if s.readyState != CLOSED && t.readyState == CLOSED then 1 else 0)
            && SI.Upgrades(es) == (if s.ws.None? && t.ws.Some? then 1 else 0)
            && (s.readyState == CLOSED ==> SI.Upgrades(es) == 0)
            && (s.ws.Some? ==> t.ws.Some?) && (s.polling.Some? <==> t.polling.Some?)
            && (s.ws.None? && t.ws.Some? ==> s.polling.Some?)
  {
    ReportedDifference(s, t);
  }

  function CountUpgrades(m: M.State, n: nat): M.State {
    m.(upgrades := m.upgrades + n, pollingCount := m.pollingCount - n, websocketCount := m.websocketCount + n)
  }

  function Upgraded(s: State, n: nat): State {
    s.(metrics := CountUpgrades(s.metrics, n))
  }

  lemma ClosedThenUpgraded(cfg: Config, s: State, id: Id, n: nat)
    ensures OnSocketClosed(cfg, Upgraded(s, n), id) == Upgraded(OnSocketClosed(cfg, s, id), n)
  {}

  /** The listeners together: upgrades are counted, a closed socket is removed. */
  lemma {:induction false} EventsEffect(cfg: Config, s: State, id: Id, es: seq<S.Event>)
    requires SI.Closings(es) <= 1
    ensures OnEvents(cfg, s, id, es) ==
            Upgraded(if SI.Closings(es) == 1 then OnSocketClosed(cfg, s, id) else s, SI.Upgrades(es))
  {
    if es != [] {
      var before, e := es[..|es| - 1], es[|es| - 1];
      EventsEffect(cfg, s, id, before);
      ClosedThenUpgraded(cfg, s, id, SI.Upgrades(before));
    }
  }

  // ----- one socket moves -----

  function Update(r: Registry, id: Id, t: S.State): Registry
    requires id in r.sessions
  {
    r.(sessions := r.sessions[id := r.sessions[id].(session := t)])
  }

  lemma UpdateKeepsSound(r: Registry, id: Id, t: S.State)
    requires Sound(r) && id in r.sessions && SI.Inv(t)
    ensures Sound(Update(r, id, t))
  {
    var r' := Update(r, id, t);
    forall x | x in r'.sessions
      ensures SI.Inv(r'.sessions[x].session)
    {
      assert x == id || r'.sessions[x] == r.sessions[x];
    }
  }

  lemma UpdateOpen(r: Registry, id: Id, t: S.State)
    requires id in r.sessions
    ensures var r' := Update(r, id, t);
            && r'.sessions.Keys == r.sessions.Keys
            && forall x :: Live(r', x) <==> if x == id then t.readyState != CLOSED else Live(r, x)
  {}

  lemma UpdateSockets(r: Registry, id: Id, t: S.State)
    requires id in r.sessions
    requires r.sessions[id].session.ws.Some? ==> t.ws.Some?
    ensures var r' := Update(r, id, t);
            if id in r.clients && !OnWebSocket(r, id) && t.ws.Some? then
              && id in Pollers(r) && Pollers(r') == Pollers(r) - {id}
              && id !in Sockets(r) && Sockets(r') == Sockets(r) + {id}
            else Pollers(r') == Pollers(r) && Sockets(r') == Sockets(r)
  {
    var r' := Update(r, id, t);
    assert forall x :: OnWebSocket(r', x) <==> if x == id then t.ws.Some? else OnWebSocket(r, x);
  }

  lemma SocketLeaves(r: Registry, id: Id)
    requires id in r.clients
    ensures var r' := r.(clients := r.clients - {id});
            if OnWebSocket(r, id) then id in Sockets(r) && Sockets(r') == Sockets(r) - {id} && Pollers(r') == Pollers(r)
            else id in Pollers(r) && Pollers(r') == Pollers(r) - {id} && Sockets(r') == Sockets(r)
  {
    var r' := r.(clients := r.clients - {id});
    assert forall x :: OnWebSocket(r', x) <==> OnWebSocket(r, x);
  }

  /** What a socket's step does to the server: the parts other than health. */
  ghost predicate Moved(cfg: Config, s: State, id: Id, t: S.State, s': State)
    requires id in s.registry.sessions
  {
    var c := s.registry.sessions[id];
    var closes := c.session.readyState != CLOSED && t.readyState == CLOSED;
    && s'.registry ==
       Update(s.registry, id, t).(clients := if closes then s.registry.clients - {id} else s.registry.clients)
    && s'.countdowns == (if closes then TickAll(s.countdowns, id) else s.countdowns)
    && s'.budget == s.budget && s'.pending == s.pending && s'.metricsEnabled == s.metricsEnabled
  }

  lemma OnSocketClosedParts(cfg: Config, s: State, id: Id)
    ensures var t := OnSocketClosed(cfg, s, id);
            && t.registry == s.registry.(clients := s.registry.clients - {id})
            && t.metrics == M.OnDisconnection(s.metrics, OnWebSocket(s.registry, id))
            && t.countdowns == TickAll(s.countdowns, id)
            && t.budget == s.budget && t.pending == s.pending && t.metricsEnabled == s.metricsEnabled
  {}

  lemma UpdateSwitched(r: Registry, id: Id, t: S.State)
    requires id in r.sessions
    requires var c := r.sessions[id].session;
             && (c.ws.Some? ==> t.ws.Some?) && (c.polling.Some? <==> t.polling.Some?)
             && (c.ws.None? && t.ws.Some? ==> c.polling.Some?)
    ensures var r' := Update(r, id, t);
            if !OnWebSocket(r, id) && t.ws.Some? then id !in Switched(r) && Switched(r') == Switched(r) + {id}
            else Switched(r') == Switched(r)
  {}

  lemma UpdateCounts(r: Registry, m: M.State, id: Id, t: S.State, n: nat)
    requires Counted(r, m) && id in r.sessions
    requires var c := r.sessions[id].session;
             && (c.ws.Some? ==> t.ws.Some?) && (c.polling.Some? <==> t.polling.Some?)
             && (c.ws.None? && t.ws.Some? ==> c.polling.Some?)
    requires n == (if !OnWebSocket(r, id) && t.ws.Some? then 1 else 0) && (n == 1 ==> id in r.clients)
    ensures Counted(Update(r, id, t), CountUpgrades(m, n))
  {
    UpdateSockets(r, id, t);
    UpdateSwitched(r, id, t);
  }

  lemma LeaveCounts(r: Registry, m: M.State, id: Id)
    requires Counted(r, m) && id in r.clients
    ensures Counted(r.(clients := r.clients - {id}), M.OnDisconnection(m, OnWebSocket(r, id)))
  {
    SocketLeaves(r, id);
  }

  lemma SocketMovesKeeps(cfg: Config, s: State, id: Id, t: S.State)
    requires Inv(cfg, s) && id in s.registry.sessions
    requires SI.Inv(t) && SI.Progress(s.registry.sessions[id].session, t)
    ensures Inv(cfg, SocketMoves(cfg, s, id, t)) && Moved(cfg, s, id, t, SocketMoves(cfg, s, id, t))
  {
    var c := s.registry.sessions[id].session;
    EventsTell(c, t);
    UpdateKeepsSound(s.registry, id, t);
    SocketMoved(cfg, s, id, t, NewEvents(c, t));
  }

  /** Every socket's step keeps the invariant and leaves the rest of the server alone. */
  lemma SocketStepKeeps(cfg: Config, s: State, id: Id, step: S.Step)
    requires Inv(cfg, s) && id in s.registry.sessions
    ensures var s' := SocketStep(cfg, s, id, step);
            Inv(cfg, s') && Moved(cfg, s, id, After(s.registry.sessions[id], step), s')
  {
    var c := s.registry.sessions[id];
    SS.StepKeeps(c.opts, c.session, step);
    SocketMovesKeeps(cfg, s, id, After(c, step));
  }

  /** A session and what it reported in its latest step. */
  ghost predicate Tells(c: S.State, t: S.State, es: seq<S.Event>) {
    && SI.Closings(es) == (if c.readyState != CLOSED && t.readyState == CLOSED then 1 else 0)
    && SI.Upgrades(es) == (if c.ws.None? && t.ws.Some? then 1 else 0)
    && (c.readyState == CLOSED ==> t.readyState == CLOSED && SI.Upgrades(es) == 0)
    && (c.ws.Some? ==> t.ws.Some?) && (c.polling.Some? <==> t.polling.Some?)
    && (c.ws.None? && t.ws.Some? ==> c.polling.Some?)
  }

  lemma SocketStays(cfg: Config, s: State, id: Id, t: S.State, es: seq<S.Event>)
    requires Outer(cfg, s) && id in s.registry.sessions
    requires Tells(s.registry.sessions[id].session, t, es) && SI.Closings(es) == 0
    ensures var s' := OnEvents(cfg, SetSession(s, id, t), id, es);
            && Outer(cfg, s') && s' == s.(registry := Update(s.registry, id, t), metrics := s'.metrics)
  {
    EventsEffect(cfg, SetSession(s, id, t), id, es);
    UpdateOpen(s.registry, id, t);
    UpdateCounts(s.registry, s.metrics, id, t, SI.Upgrades(es));
  }

  /** A socket that is closed but still in the map is taken out of it. */
  lemma ClosedKeepsOuter(cfg: Config, s: State, id: Id)
    requires Counted(s.registry, s.metrics) && Watched(cfg, |s.registry.clients|, s.health)
    requires AllCounting(s.countdowns, s.registry.clients, s.registry.sessions.Keys) && id in s.registry.clients
    requires Registered(s.registry.(clients := s.registry.clients - {id}))
    ensures Outer(cfg, OnSocketClosed(cfg, s, id))
    ensures var t := OnSocketClosed(cfg, s, id);
            t == s.(registry := s.registry.(clients := s.registry.clients - {id}), metrics := t.metrics,
                    health := t.health, countdowns := TickAll(s.countdowns, id))
  {
    LeaveCounts(s.registry, s.metrics, id);
    OnSocketClosedParts(cfg, s, id);
    TickAllKeepsCounting(s.countdowns, s.registry.clients, s.registry.sessions.Keys, id);
    UpdateKeepsWatched(cfg, s.(registry := s.registry.(clients := s.registry.clients - {id})));
  }

  lemma SocketCloses(cfg: Config, s: State, id: Id, t: S.State, es: seq<S.Event>)
    requires Outer(cfg, s) && id in s.registry.sessions
    requires Tells(s.registry.sessions[id].session, t, es) && SI.Closings(es) == 1
    ensures var s' := OnEvents(cfg, SetSession(s, id, t), id, es);
            && Outer(cfg, s')
            && s' == s.(registry := Update(s.registry, id, t).(clients := s.registry.clients - {id}),
                        metrics := s'.metrics, health := s'.health, countdowns := TickAll(s.countdowns, id))
  {
    var s1 := SetSession(s, id, t);
    var n := SI.Upgrades(es);
    EventsEffect(cfg, s1, id, es);
    ClosedThenUpgraded(cfg, s1, id, n);
    UpdateOpen(s.registry, id, t);
    UpdateCounts(s.registry, s.metrics, id, t, n);
    assert Live(s.registry, id);
    ClosedKeepsOuter(cfg, Upgraded(s1, n), id);
  }

  lemma SocketMoved(cfg: Config, s: State, id: Id, t: S.State, es: seq<S.Event>)
    requires Outer(cfg, s) && id in s.registry.sessions
    requires Tells(s.registry.sessions[id].session, t, es)
    ensures var s' := OnEvents(cfg, SetSession(s, id, t), id, es);
            Outer(cfg, s') && Moved(cfg, s, id, t, s')
  {
    if SI.Closings(es) == 1 {
      SocketCloses(cfg, s, id, t, es);
    } else {
      SocketStays(cfg, s, id, t, es);
    }
  }
}
