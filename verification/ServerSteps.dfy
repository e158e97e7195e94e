/** Every step of the server keeps its invariant. */
module ServerSteps {
  import opened Packets
  import opened Transport
  import opened ServerState
  import opened ServerInvariants
  import S = Session
  import SI = SessionInvariants
  import SS = SessionSteps
  import ST = SessionTheorems
  import M = Metrics

  // ----- budgets -----

  lemma OccurrencesAppend(window: seq<Option<string>>, last: Option<string>, ip: Option<string>)
    ensures Occurrences(window + [last], ip) == Occurrences(window, ip) + (if last == ip then 1 else 0)
  {
    assert (window + [last])[..|window|] == window;
  }

  lemma SpendKeepsBudget(cfg: Config, b: Budget, ip: Option<string>)
    requires Budgeted(cfg, b)
    requires cfg.maxHandshakesPerSecond > 0 ==> b.tokens > 0
    requires ip.Some? ==> CountOf(b.ipCounts, ip.value) < cfg.maxHandshakesPerIp
    ensures Budgeted(cfg, Spend(cfg, b, ip))
  {
    var b' := Spend(cfg, b, ip);
    forall x
      ensures CountOf(b'.ipCounts, x) == Occurrences(b'.window, Some(x))
    {
      OccurrencesAppend(b.window, ip, Some(x));
    }
    OccurrencesAppend(b.window, ip, None);
    if ip.Some? {
      TotalGrows(b.ipCounts, ip.value);
    }
  }

  /** A handshake spends its budget, or is told which one is used up; then the server may be full. */
  lemma ScreenKeeps(cfg: Config, s: State, address: Option<string>)
    requires Inv(cfg, s)
    ensures var (s', verdict) := Screen(cfg, s, address);
            && Inv(cfg, s') && s'.registry == s.registry && s'.pending == s.pending
            && (verdict == Passed && cfg.maxClients > 0 ==> |s.registry.clients| < cfg.maxClients)
  {
    var ip := KnownIp(cfg, address);
    if Affords(cfg, s.budget, ip) == Passed {
      SpendKeepsBudget(cfg, s.budget, ip);
    }
  }

  lemma RefillKeeps(cfg: Config, s: State)
    requires Inv(cfg, s)
    ensures Inv(cfg, RefillBudget(cfg, s))
  {}

  // ----- a new socket -----

  lemma NewcomerSockets(r: Registry, id: Id, c: Client, admissions: seq<Admission>)
    requires id !in r.clients
    requires id !in r.sessions && !(c.session.polling.Some? && c.session.ws.Some?)
    ensures var r' := Registry(r.sessions[id := c], r.clients + {id}, admissions);
            && Switched(r') == Switched(r)
            && id !in Sockets(r) && id !in Pollers(r)
            && Sockets(r') == (if c.session.ws.Some? then Sockets(r) + {id} else Sockets(r))
            && Pollers(r') == (if c.session.ws.Some? then Pollers(r) else Pollers(r) + {id})
  {
    var r' := Registry(r.sessions[id := c], r.clients + {id}, admissions);
    assert forall x :: OnWebSocket(r', x) <==> if x == id then c.session.ws.Some? else OnWebSocket(r, x);
  }

  lemma NewcomerCounts(r: Registry, m: M.State, id: Id, c: Client, admissions: seq<Admission>)
    requires Counted(r, m) && id !in r.clients && id !in r.sessions
    requires !(c.session.polling.Some? && c.session.ws.Some?)
    ensures Counted(Registry(r.sessions[id := c], r.clients + {id}, admissions), M.OnConnection(m, c.session.ws.Some?))
  {
    NewcomerSockets(r, id, c, admissions);
  }

  lemma NewcomerRegistered(r: Registry, id: Id, c: Client, admissions: seq<Admission>)
    requires Sound(r) && Registered(r) && id !in r.sessions
    requires SI.Inv(c.session) && c.session.readyState != CLOSED
    ensures var r' := Registry(r.sessions[id := c], r.clients + {id}, admissions);
            Sound(r') && Registered(r') && r'.sessions.Keys == r.sessions.Keys + {id} && r.clients <= r.sessions.Keys
  {
    var r' := Registry(r.sessions[id := c], r.clients + {id}, admissions);
    forall x | x in r'.sessions
      ensures SI.Inv(r'.sessions[x].session)
    {
      assert x == id || r'.sessions[x] == r.sessions[x];
    }
    forall x
      ensures x in r'.clients <==> Live(r', x)
    {
      assert x == id || (Live(r', x) <==> Live(r, x));
    }
    forall x | x in r.clients
      ensures x in r.sessions.Keys
    {
      assert Live(r, x);
    }
  }

  lemma NewClientOpens(cfg: Config, s: State, r: Request)
    ensures var c := NewClient(cfg, s, r);
            SI.Inv(c.session) && c.session.readyState == OPEN && (c.session.ws.Some? <==> r.upgrade)
            && c.session.upgradeState == S.NotUpgraded
  {
    var opts := SocketOptions(cfg, s.health.degraded);
    var b := ST.Birth(r.upgrade, r.room, r.text, r.now);
    ST.BornOpens(opts, b);
    ST.BornTransport(opts, b);
  }

  /** What a new client is like. */
  ghost predicate Newcomer(cfg: Config, s: State, webSocket: bool, c: Client) {
    && SI.Inv(c.session) && c.session.readyState != CLOSED && (c.session.ws.Some? <==> webSocket)
    && c.session.upgradeState == S.NotUpgraded
    && c.opts == SocketOptions(cfg, s.health.degraded)
  }

  /** One socket more was made, which may be a client. */
  ghost predicate OneMore(cfg: Config, s: State, s': State, id: Id) {
    && Inv(cfg, s') && s'.pending == s.pending
    && s'.registry.clients <= s.registry.clients + {id}
    && s'.registry.sessions.Keys == s.registry.sessions.Keys + {id}
  }

  lemma JoinKeepsOuter(cfg: Config, s: State, id: Id, webSocket: bool, c: Client)
    requires Outer(cfg, s) && Sound(s.registry) && id !in s.registry.sessions && Newcomer(cfg, s, webSocket, c)
    ensures var s' := Join(cfg, s, id, webSocket, c);
            Outer(cfg, s') && Sound(s'.registry)
  {
    var admissions := s.registry.admissions + [Admission(s.health.degraded, webSocket, c.opts)];
    var r' := Registry(s.registry.sessions[id := c], s.registry.clients + {id}, admissions);
    NewcomerRegistered(s.registry, id, c, admissions);
    assert !Live(s.registry, id);
    NewcomerCounts(s.registry, s.metrics, id, c, admissions);
    NewcomerKeepsCounting(s.countdowns, s.registry.clients, s.registry.sessions.Keys, id);
    UpdateKeepsWatched(cfg, s.(registry := r', metrics := M.OnConnection(s.metrics, webSocket)));
  }

  lemma JoinAdds(cfg: Config, s: State, id: Id, webSocket: bool, c: Client)
    ensures var s' := Join(cfg, s, id, webSocket, c);
            && s'.registry.clients == s.registry.clients + {id}
            && s'.registry.sessions == s.registry.sessions[id := c]
            && s'.registry.sessions.Keys == s.registry.sessions.Keys + {id}
            && s'.pending == s.pending && s'.metricsEnabled == s.metricsEnabled && s'.budget == s.budget
            && s'.registry.admissions == s.registry.admissions + [Admission(s.health.degraded, webSocket, c.opts)]
  {}

  lemma AdmittedOneMore(cfg: Config, admissions: seq<Admission>, last: Admission)
    requires Admitted(cfg, admissions)
    requires (last.degraded ==> last.webSocket) && last.opts == SocketOptions(cfg, last.degraded)
    ensures Admitted(cfg, admissions + [last])
  {}

  lemma JoinKeeps(cfg: Config, s: State, id: Id, webSocket: bool, c: Client)
    requires Inv(cfg, s) && id !in s.registry.sessions && Newcomer(cfg, s, webSocket, c)
    requires s.health.degraded ==> webSocket
    ensures var s' := Join(cfg, s, id, webSocket, c);
            OneMore(cfg, s, s', id) && s'.metricsEnabled == s.metricsEnabled
  {
    JoinKeepsOuter(cfg, s, id, webSocket, c);
    JoinAdds(cfg, s, id, webSocket, c);
    AdmittedOneMore(cfg, s.registry.admissions, Admission(s.health.degraded, webSocket, c.opts));
  }

  // ----- all sockets -----

  /** A step of any socket, known or not, leaves a server with no more clients. */
  ghost predicate NoMore(cfg: Config, s: State, s': State) {
    && Inv(cfg, s') && s'.registry.clients <= s.registry.clients
    && s'.registry.sessions.Keys == s.registry.sessions.Keys && s'.pending == s.pending
  }

  lemma MovedIsNoMore(cfg: Config, s: State, id: Id, t: S.State, s': State)
    requires id in s.registry.sessions && Inv(cfg, s') && Moved(cfg, s, id, t, s')
    ensures NoMore(cfg, s, s')
  {
    UpdateOpen(s.registry, id, t);
  }

  lemma AnySocketStepKeeps(cfg: Config, s: State, id: Id, step: S.Step)
    requires Inv(cfg, s)
    ensures NoMore(cfg, s, SocketStep(cfg, s, id, step))
  {
    if id in s.registry.sessions {
      SocketStepKeeps(cfg, s, id, step);
      MovedIsNoMore(cfg, s, id, After(s.registry.sessions[id], step), SocketStep(cfg, s, id, step));
    }
  }

  lemma NoMoreTrans(cfg: Config, s: State, t: State, u: State)
    requires NoMore(cfg, s, t) && NoMore(cfg, t, u)
    ensures NoMore(cfg, s, u)
  {}

  lemma {:induction false} EachSocketKeeps(cfg: Config, s: State, order: seq<Id>, step: S.Step)
    requires Inv(cfg, s)
    ensures NoMore(cfg, s, EachSocket(cfg, s, order, step))
    decreases |order|
  {
    if order != [] {
      var s1 := SocketStep(cfg, s, order[0], step);
      AnySocketStepKeeps(cfg, s, order[0], step);
      EachSocketKeeps(cfg, s1, order[1..], step);
      NoMoreTrans(cfg, s, s1, EachSocket(cfg, s, order, step));
    }
  }

  lemma FirstStepsKeep(cfg: Config, s: State, id: Id, poll: bool)
    requires Inv(cfg, s)
    ensures NoMore(cfg, s, FirstSteps(cfg, s, id, poll))
  {
    AnySocketStepKeeps(cfg, s, id, S.EnablePacketCreate);
    var s1 := if s.metricsEnabled then SocketStep(cfg, s, id, S.EnablePacketCreate) else s;
    AnySocketStepKeeps(cfg, s1, id, S.PollIn);
  }

  lemma FirstStepsAfterJoin(cfg: Config, s: State, s1: State, id: Id, poll: bool)
    requires OneMore(cfg, s, s1, id)
    ensures OneMore(cfg, s, FirstSteps(cfg, s1, id, poll), id)
  {
    FirstStepsKeep(cfg, s1, id, poll);
  }

  lemma SettleKeeps(cfg: Config, s: State, r: Request, c: Client)
    requires Inv(cfg, s) && r.id !in s.registry.sessions
    requires Newcomer(cfg, s, r.upgrade, c) && (s.health.degraded ==> r.upgrade)
    ensures OneMore(cfg, s, Settle(cfg, s, r, c), r.id)
  {
    JoinKeeps(cfg, s, r.id, r.upgrade, c);
    FirstStepsAfterJoin(cfg, s, Join(cfg, s, r.id, r.upgrade, c), r.id, !r.upgrade);
  }

  /** A handshake that gets through adds its socket; another changes nothing. */
  lemma RegisterKeeps(cfg: Config, s: State, r: Request)
    requires Inv(cfg, s) && r.id !in s.registry.sessions
    ensures var (s', verdict) := Register(cfg, s, r);
            if verdict == Connected then OneMore(cfg, s, s', r.id) else s' == s
  {
    if Register(cfg, s, r).1 == Connected {
      NewClientOpens(cfg, s, r);
      SettleKeeps(cfg, s, r, NewClient(cfg, s, r));
    }
  }

  // ----- closing the server -----

  predicate Closes(s: State, id: Id, step: S.Step)
    requires id in s.registry.sessions
  {
    var c := s.registry.sessions[id];
    c.session.readyState != CLOSED && After(c, step).readyState == CLOSED
  }

  lemma OnSocketClosedCountdowns(cfg: Config, s: State, cs: seq<Countdown>, id: Id)
    ensures OnSocketClosed(cfg, s.(countdowns := cs), id) == OnSocketClosed(cfg, s, id).(countdowns := TickAll(cs, id))
  {}

  /** Countdowns only hear that a socket closed. */
  lemma CountdownsHear(cfg: Config, s: State, cs: seq<Countdown>, id: Id, step: S.Step)
    requires Sound(s.registry) && id in s.registry.sessions
    ensures SocketStep(cfg, s.(countdowns := cs), id, step) ==
            SocketStep(cfg, s, id, step).(countdowns := if Closes(s, id, step) then TickAll(cs, id) else cs)
  {
    var c := s.registry.sessions[id];
    var t := After(c, step);
    var es := NewEvents(c.session, t);
    SS.StepKeeps(c.opts, c.session, step);
    EventsTell(c.session, t);
    CountdownsHearEvents(cfg, SetSession(s, id, t), cs, id, es);
  }

  lemma CountdownsHearEvents(cfg: Config, s: State, cs: seq<Countdown>, id: Id, es: seq<S.Event>)
    requires SI.Closings(es) <= 1
    ensures OnEvents(cfg, s.(countdowns := cs), id, es) ==
            OnEvents(cfg, s, id, es).(countdowns := if SI.Closings(es) == 1 then TickAll(cs, id) else cs)
  {
    EventsEffect(cfg, s, id, es);
    EventsEffect(cfg, s.(countdowns := cs), id, es);
    OnSocketClosedCountdowns(cfg, s, cs, id);
  }

  /** The countdown of a close() that still has `rest` to go through. */
  predicate Halfway(c: Countdown, clients: set<Id>, ids: set<Id>, rest: set<Id>) {
    && c.initial <= ids && rest <= c.initial * clients
    && c.listening == c.initial * clients - rest
    && c.remaining == |c.initial * clients|
    && c.resolved == (if c.initial * clients == {} then 1 else 0)
  }

  lemma HalfwayStep(c: Countdown, clients: set<Id>, ids: set<Id>, rest: set<Id>, id: Id)
    requires Halfway(c, clients, ids, rest) && id in rest
    ensures var c1 := c.(listening := c.listening + {id});
            && Halfway(c1, clients, ids, rest - {id})
            && Halfway(Tick(c1, id), clients - {id}, ids, rest - {id})
  {
    var c1 := c.(listening := c.listening + {id});
    assert c1.listening == c.initial * clients - (rest - {id});
    assert c.initial * (clients - {id}) == c.initial * clients - {id};
    assert |c.initial * clients - {id}| == |c.initial * clients| - 1;
  }

  lemma TickAllAppend(cs: seq<Countdown>, c: Countdown, id: Id)
    ensures TickAll(cs + [c], id) == TickAll(cs, id) + [Tick(c, id)]
  {
    assert (cs + [c])[..|cs|] == cs;
  }

  /** None of these sockets is OPEN any more. */
  ghost predicate AllAsked(r: Registry, ids: set<Id>) {
    forall id | id in ids && id in r.sessions :: r.sessions[id].session.readyState != OPEN
  }

  /** The server while close() goes through its clients. */
  ghost predicate Closing(cfg: Config, s: State, prior: seq<Countdown>, c: Countdown, rest: set<Id>) {
    && s.countdowns == prior + [c]
    && Inv(cfg, s.(countdowns := prior))
    && Halfway(c, s.registry.clients, s.registry.sessions.Keys, rest)
    && AllAsked(s.registry, c.initial - rest)
  }

  lemma NotOpenAfterClose(s: S.State)
    ensures S.CloseSession(s).readyState != OPEN
  {}

  lemma AskedOneMore(r: Registry, ids: set<Id>, id: Id, t: S.State, clients: set<Id>)
    requires AllAsked(r, ids) && id in r.sessions && t.readyState != OPEN
    ensures AllAsked(Update(r, id, t).(clients := clients), ids + {id})
  {}

  lemma AskedIsNotOpen(c: Client)
    ensures After(c, S.DoClose).readyState != OPEN
  {
    NotOpenAfterClose(c.session);
  }

  lemma CloseOneMoves(cfg: Config, s: State, id: Id)
    requires Inv(cfg, s) && id in s.registry.sessions
    ensures var t := After(s.registry.sessions[id], S.DoClose);
            && Inv(cfg, SocketStep(cfg, s, id, S.DoClose)) && t.readyState != OPEN
            && Moved(cfg, s, id, t, SocketStep(cfg, s, id, S.DoClose))
  {
    SocketStepKeeps(cfg, s, id, S.DoClose);
    AskedIsNotOpen(s.registry.sessions[id]);
  }

  /** The countdowns of a close() after one more socket. */
  lemma CloseOneCountdowns(cfg: Config, s: State, prior: seq<Countdown>, c: Countdown, rest: set<Id>, id: Id)
    returns (prior': seq<Countdown>, c': Countdown)
    requires Inv(cfg, s) && s.countdowns == prior && id in rest
    requires Halfway(c, s.registry.clients, s.registry.sessions.Keys, rest)
    ensures var c1 := c.(listening := c.listening + {id});
            && SocketStep(cfg, s.(countdowns := prior + [c1]), id, S.DoClose) ==
               SocketStep(cfg, s, id, S.DoClose).(countdowns := prior' + [c'])
            && SocketStep(cfg, s, id, S.DoClose).countdowns == prior'
    ensures var clients := if Closes(s, id, S.DoClose) then s.registry.clients - {id} else s.registry.clients;
            Halfway(c', clients, s.registry.sessions.Keys, rest - {id})
    ensures |prior'| == |prior| && c'.initial == c.initial
  {
    var c1 := c.(listening := c.listening + {id});
    HalfwayStep(c, s.registry.clients, s.registry.sessions.Keys, rest, id);
    TickAllAppend(prior, c1, id);
    CountdownsHear(cfg, s, prior + [c1], id, S.DoClose);
    CountdownsHear(cfg, s, prior, id, S.DoClose);
    assert s.(countdowns := prior) == s;
    prior' := if Closes(s, id, S.DoClose) then TickAll(prior, id) else prior;
    c' := if Closes(s, id, S.DoClose) then Tick(c1, id) else c1;
    TickAllKeepsCounting(prior, s.registry.clients, s.registry.sessions.Keys, id);
  }

  lemma ClosingAgain(cfg: Config, a: State, prior: seq<Countdown>, c: Countdown, rest: set<Id>)
    requires Inv(cfg, a) && a.countdowns == prior
    requires Halfway(c, a.registry.clients, a.registry.sessions.Keys, rest) && AllAsked(a.registry, c.initial - rest)
    ensures Closing(cfg, a.(countdowns := prior + [c]), prior, c, rest)
  {
    assert a.(countdowns := prior + [c]).(countdowns := prior) == a;
  }

  lemma ListenLast(prior: seq<Countdown>, c: Countdown, id: Id)
    ensures Listen(prior + [c], |prior|, id) == prior + [c.(listening := c.listening + {id})]
  {}

  /** The last countdown listens, and the socket takes the step. */
  lemma AskIsStep(cfg: Config, s: State, prior: seq<Countdown>, c: Countdown, id: Id)
    requires s.countdowns == prior + [c]
    ensures AskToClose(cfg, s, |prior|, id) ==
            SocketStep(cfg, s.(countdowns := prior + [c.(listening := c.listening + {id})]), id, S.DoClose)
  {
    ListenLast(prior, c, id);
  }

  lemma ClientIsSocket(r: Registry, id: Id)
    requires Registered(r) && id in r.clients
    ensures id in r.sessions
  {
    assert Live(r, id);
  }

  lemma CloseOne(cfg: Config, s: State, prior: seq<Countdown>, c: Countdown, rest: set<Id>, id: Id)
    returns (prior': seq<Countdown>, c': Countdown)
    requires Closing(cfg, s, prior, c, rest) && id in rest
    ensures var s' := AskToClose(cfg, s, |prior|, id);
            && Closing(cfg, s', prior', c', rest - {id}) && |prior'| == |prior|
            && c'.initial == c.initial && s'.pending == s.pending
            && s'.registry.clients <= s.registry.clients
  {
    var s0 := s.(countdowns := prior);
    AskIsStep(cfg, s, prior, c, id);
    ClientIsSocket(s.registry, id);
    assert s0.(countdowns := prior + [c.(listening := c.listening + {id})]) ==
           s.(countdowns := prior + [c.(listening := c.listening + {id})]);
    prior', c' := CloseOneOf(cfg, s0, prior, c, rest, id);
  }

  /** The same, with the countdown of the close() under way apart from the others. */
  lemma CloseOneOf(cfg: Config, s: State, prior: seq<Countdown>, c: Countdown, rest: set<Id>, id: Id)
    returns (prior': seq<Countdown>, c': Countdown)
    requires Inv(cfg, s) && s.countdowns == prior && id in rest && id in s.registry.sessions
    requires Halfway(c, s.registry.clients, s.registry.sessions.Keys, rest) && AllAsked(s.registry, c.initial - rest)
    ensures var s' := SocketStep(cfg, s.(countdowns := prior + [c.(listening := c.listening + {id})]), id, S.DoClose);
            && Closing(cfg, s', prior', c', rest - {id}) && |prior'| == |prior|
            && c'.initial == c.initial && s'.pending == s.pending
            && s'.registry.clients <= s.registry.clients
  {
    prior', c' := CloseOneCountdowns(cfg, s, prior, c, rest, id);
    CloseOneMoves(cfg, s, id);
    var a := SocketStep(cfg, s, id, S.DoClose);
    CloseOneAsked(s.registry, c.initial, rest, id, After(s.registry.sessions[id], S.DoClose), a.registry);
    ClosingAgain(cfg, a, prior', c', rest - {id});
  }

  lemma CloseOneAsked(r: Registry, initial: set<Id>, rest: set<Id>, id: Id, t: S.State, r': Registry)
    requires AllAsked(r, initial - rest) && id in r.sessions && t.readyState != OPEN
    requires r' == Update(r, id, t).(clients := r'.clients)
    ensures AllAsked(r', initial - (rest - {id}))
  {
    AskedOneMore(r, initial - rest, id, t, r'.clients);
  }

  ghost predicate Distinct(order: seq<Id>) {
    forall i, j | 0 <= i < j < |order| :: order[i] != order[j]
  }

  function Members(order: seq<Id>): set<Id> {
    set id | id in order
  }

  lemma FirstAndRest(order: seq<Id>)
    requires Distinct(order) && order != []
    ensures Distinct(order[1..]) && Members(order[1..]) == Members(order) - {order[0]}
  {
    forall id
      ensures id in order[1..] <==> id in order && id != order[0]
    {
      if id in order && id != order[0] {
        var i :| 0 <= i < |order| && order[i] == id;
        assert order[1..][i - 1] == id;
      }
    }
  }

  /** What close() leaves: a countdown that counts, and no socket that was not asked to close. */
  ghost predicate ClosedUp(cfg: Config, s: State, j: nat, initial: set<Id>, s': State) {
    && Inv(cfg, s') && s'.pending == s.pending && s'.registry.clients <= s.registry.clients
    && |s'.countdowns| == j + 1 && s'.countdowns[j].initial == initial
    && AllAsked(s'.registry, initial)
  }

  lemma ClosedUpBefore(cfg: Config, s: State, s1: State, j: nat, initial: set<Id>, s': State)
    requires ClosedUp(cfg, s1, j, initial, s')
    requires s1.pending == s.pending && s1.registry.clients <= s.registry.clients
    ensures ClosedUp(cfg, s, j, initial, s')
  {}

  lemma NobodyLeft(cfg: Config, s: State, prior: seq<Countdown>, c: Countdown)
    requires Closing(cfg, s, prior, c, {})
    ensures ClosedUp(cfg, s, |prior|, c.initial, s)
  {
    CountdownComplete(cfg, s, prior, c);
  }

  lemma {:induction false} CloseEachKeeps(cfg: Config, s: State, prior: seq<Countdown>, c: Countdown, order: seq<Id>)
    requires Distinct(order) && Closing(cfg, s, prior, c, Members(order))
    ensures ClosedUp(cfg, s, |prior|, c.initial, CloseEach(cfg, s, |prior|, order))
    decreases |order|
  {
    if order == [] {
      NobodyLeft(cfg, s, prior, c);
    } else {
      var s1 := AskToClose(cfg, s, |prior|, order[0]);
      var prior', c' := CloseOne(cfg, s, prior, c, Members(order), order[0]);
      FirstAndRest(order);
      CloseEachKeeps(cfg, s1, prior', c', order[1..]);
      ClosedUpBefore(cfg, s, s1, |prior|, c.initial, CloseEach(cfg, s1, |prior|, order[1..]));
    }
  }

  lemma CountdownComplete(cfg: Config, s: State, prior: seq<Countdown>, c: Countdown)
    requires Closing(cfg, s, prior, c, {})
    ensures Inv(cfg, s) && AllAsked(s.registry, c.initial)
  {
    assert c.initial - {} == c.initial;
    assert (prior + [c])[..|prior|] == prior;
    assert c.initial * s.registry.clients - {} == c.initial * s.registry.clients;
  }

  lemma ClosingStarts(cfg: Config, s: State, c: Countdown)
    requires Inv(cfg, s)
    requires var ids := s.registry.clients; c == Countdown(ids, {}, |ids|, if |ids| == 0 then 1 else 0)
    ensures Closing(cfg, s.(countdowns := s.countdowns + [c]), s.countdowns, c, s.registry.clients)
  {
    var ids := s.registry.clients;
    assert ids * ids == ids && ids - ids == {};
    forall id | id in ids
      ensures id in s.registry.sessions.Keys
    {
      assert Live(s.registry, id);
    }
    ClosingAgain(cfg, s, s.countdowns, c, ids);
  }

  lemma CloseAllKeeps(cfg: Config, s: State, order: seq<Id>)
    requires Inv(cfg, s) && Enumerates(order, s.registry.clients)
    ensures ClosedUp(cfg, s, |s.countdowns|, s.registry.clients, CloseAll(cfg, s, order))
  {
    var ids := s.registry.clients;
    var c := Countdown(ids, {}, |ids|, if |ids| == 0 then 1 else 0);
    assert Members(order) == ids;
    ClosingStarts(cfg, s, c);
    CloseEachKeeps(cfg, s.(countdowns := s.countdowns + [c]), s.countdowns, c, order);
  }

  // ----- all steps, all runs -----

  /** Without a hook, the server is never over capacity. */
  predicate Fits(cfg: Config, s: State) {
    cfg.hook || cfg.maxClients == 0 || |s.registry.clients| <= cfg.maxClients
  }

  lemma SubsetFits(a: set<Id>, b: set<Id>)
    requires a <= b
    ensures |a| <= |b|
  {
    if a != {} {
      var x :| x in a;
      SubsetFits(a - {x}, b - {x});
    }
  }

  ghost predicate Kept(cfg: Config, s: State) {
    Inv(cfg, s) && Fits(cfg, s) && (s.pending > 0 ==> cfg.hook)
  }

  lemma OneMoreFits(cfg: Config, s: State, s': State, id: Id)
    requires OneMore(cfg, s, s', id) && (cfg.maxClients > 0 ==> |s.registry.clients| < cfg.maxClients)
    requires s.pending > 0 ==> cfg.hook
    ensures Kept(cfg, s')
  {
    SubsetFits(s'.registry.clients, s.registry.clients + {id});
  }

  lemma ShakeKeeps(cfg: Config, s: State, address: Option<string>, r: Request)
    requires Kept(cfg, s) && !cfg.hook && r.id !in s.registry.sessions
    ensures Kept(cfg, Handshake(cfg, s, address, r).0)
  {
    var (s1, verdict) := Screen(cfg, s, address);
    ScreenKeeps(cfg, s, address);
    if verdict == Passed {
      RegisterKeeps(cfg, s1, r);
      if Register(cfg, s1, r).1 == Connected {
        OneMoreFits(cfg, s1, Register(cfg, s1, r).0, r.id);
      }
    }
  }

  lemma ShakeBeginsKeeps(cfg: Config, s: State, address: Option<string>)
    requires Kept(cfg, s) && cfg.hook
    ensures Kept(cfg, Apply(cfg, s, ShakeBegins(address)))
  {
    ScreenKeeps(cfg, s, address);
    assert Fits(cfg, Apply(cfg, s, ShakeBegins(address)));
  }

  lemma ShakeEndsKeeps(cfg: Config, s: State, r: Request)
    requires Kept(cfg, s) && s.pending > 0 && r.id !in s.registry.sessions
    ensures var s' := Apply(cfg, s, ShakeEnds(r));
            && Kept(cfg, s') && s'.pending == s.pending - 1
            && s'.registry.sessions.Keys <= s.registry.sessions.Keys + {r.id}
  {
    RegisterKeeps(cfg, s.(pending := s.pending - 1), r);
  }

  lemma EachSocketFits(cfg: Config, s: State, order: seq<Id>, step: S.Step)
    requires Kept(cfg, s)
    ensures Kept(cfg, EachSocket(cfg, s, order, step))
  {
    EachSocketKeeps(cfg, s, order, step);
    SubsetFits(EachSocket(cfg, s, order, step).registry.clients, s.registry.clients);
  }

  lemma WalkKeeps(cfg: Config, s: State, order: seq<Id>, some: seq<Id>, step: S.Step)
    requires Kept(cfg, s)
    ensures Kept(cfg, Walk(cfg, s, order, some, step))
  {
    if Enumerates(order, s.registry.clients) {
      EachSocketFits(cfg, s, some, step);
    }
  }

  lemma OnSocketKeeps(cfg: Config, s: State, id: Id, step: S.Step)
    requires Kept(cfg, s)
    ensures Kept(cfg, SocketStep(cfg, s, id, step))
  {
    AnySocketStepKeeps(cfg, s, id, step);
    SubsetFits(SocketStep(cfg, s, id, step).registry.clients, s.registry.clients);
  }

  lemma CloseServerKeeps(cfg: Config, s: State, order: seq<Id>)
    requires Kept(cfg, s) && Enumerates(order, s.registry.clients)
    ensures Kept(cfg, CloseAll(cfg, s, order))
  {
    CloseAllKeeps(cfg, s, order);
    SubsetFits(CloseAll(cfg, s, order).registry.clients, s.registry.clients);
  }

  lemma BudgetTimerKeeps(cfg: Config, s: State)
    requires Kept(cfg, s)
    ensures Kept(cfg, RefillBudget(cfg, s))
  {
    RefillKeeps(cfg, s);
  }

  lemma ShakeStepKeeps(cfg: Config, s: State, step: Step)
    requires Kept(cfg, s) && (step.Shake? || step.ShakeBegins? || step.ShakeEnds?)
    ensures Kept(cfg, Apply(cfg, s, step))
  {
    match step
    case Shake(address, r) =>
      if !cfg.hook && r.id !in s.registry.sessions {
        ShakeKeeps(cfg, s, address, r);
      }
    case ShakeBegins(address) =>
      if cfg.hook {
        ShakeBeginsKeeps(cfg, s, address);
      }
    case ShakeEnds(r) =>
      if s.pending > 0 && r.id !in s.registry.sessions {
        ShakeEndsKeeps(cfg, s, r);
      }
  }

  /** Every step keeps the invariant, and without a hook the capacity. */
  lemma ApplyKeeps(cfg: Config, s: State, step: Step)
    requires Kept(cfg, s)
    ensures Kept(cfg, Apply(cfg, s, step))
  {
    match step
    case BudgetTimer => BudgetTimerKeeps(cfg, s);
    case OnSocket(id, step) => OnSocketKeeps(cfg, s, id, step);
    case CloseServer(order) =>
      if Enumerates(order, s.registry.clients) {
        CloseServerKeeps(cfg, s, order);
      }
    case Shake(_, _) => ShakeStepKeeps(cfg, s, step);
    case ShakeBegins(_) => ShakeStepKeeps(cfg, s, step);
    case ShakeEnds(_) => ShakeStepKeeps(cfg, s, step);
    case BroadcastAll(order, data) => WalkKeeps(cfg, s, order, order, S.DoBroadcast(data));
    case BroadcastBut(order, excluded, data) => WalkKeeps(cfg, s, order, Without(order, excluded), S.DoBroadcast(data));
    case ReadMetrics(order) => WalkKeeps(cfg, s.(metricsEnabled := true), order, order, S.EnablePacketCreate);
  }

  lemma {:induction false} RunKeeps(cfg: Config, s: State, steps: seq<Step>)
    requires Kept(cfg, s)
    ensures Kept(cfg, Run(cfg, s, steps))
    decreases |steps|
  {
    if steps != [] {
      ApplyKeeps(cfg, s, steps[0]);
      RunKeeps(cfg, Apply(cfg, s, steps[0]), steps[1..]);
    }
  }

  lemma InitialKept(cfg: Config, metricsEnabled: bool)
    requires 0.0 <= cfg.degradationThreshold
    ensures Kept(cfg, Initial(cfg, metricsEnabled))
  {
    var r := Initial(cfg, metricsEnabled).registry;
    assert Sockets(r) == {} && Pollers(r) == {} && Switched(r) == {};
    if Watching(cfg) {
      assert 0.0 / cfg.maxClients as real == 0.0;
    }
  }
}
