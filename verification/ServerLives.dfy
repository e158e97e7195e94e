/**
 * The sockets of a server, each living its own life: every one is a session in some run
 * since its handshake, so that what holds of sessions holds of them, and close() resolves.
 */
module ServerLives {
  import opened Packets
  import opened Transport
  import opened ServerState
  import opened ServerInvariants
  import opened ServerSteps
  import opened ServerTheorems
  import S = Session
  import SI = SessionInvariants
  import SS = SessionSteps
  import ST = SessionTheorems
  import W = WebSocketTransport

  /** A socket, some steps later. */
  ghost predicate Older(c: Client, c': Client) {
    c'.opts == c.opts && exists more: seq<S.Step> :: c'.session == S.Run(c.opts, c.session, more)
  }

  lemma OlderTrans(c: Client, c1: Client, c2: Client)
    requires Older(c, c1) && Older(c1, c2)
    ensures Older(c, c2)
  {
    var xs: seq<S.Step> :| c1.session == S.Run(c.opts, c.session, xs);
    var ys: seq<S.Step> :| c2.session == S.Run(c1.opts, c1.session, ys);
    ST.RunConcat(c.opts, c.session, xs, ys);
  }

  lemma OlderSelf(c: Client)
    ensures Older(c, c)
  {
    assert S.Run(c.opts, c.session, []) == c.session;
  }

  lemma StepOlder(c: Client, step: S.Step)
    requires SI.Inv(c.session)
    ensures Older(c, c.(session := After(c, step))) && SI.Inv(After(c, step))
  {
    SS.StepKeeps(c.opts, c.session, step);
    OneStep(c, step);
  }

  lemma OneStep(c: Client, step: S.Step)
    ensures S.Run(c.opts, c.session, [step]) == After(c, step)
  {
    assert [step][1..] == [];
    assert S.Run(c.opts, c.session, [step]) == S.Run(c.opts, After(c, step), []);
  }

  /** The socket is a session in some run since its handshake. */
  ghost predicate Lived(c: Client) {
    exists b: ST.Birth, steps: seq<S.Step> :: c.session == ST.Life(c.opts, b, steps)
  }

  lemma LifeGoesOn(c: Client, c': Client)
    requires Lived(c) && Older(c, c')
    ensures Lived(c')
  {
    var b: ST.Birth, steps: seq<S.Step> :| c.session == ST.Life(c.opts, b, steps);
    var more: seq<S.Step> :| c'.session == S.Run(c.opts, c.session, more);
    ST.RunConcat(c.opts, ST.Born(c.opts, b), steps, more);
    assert c'.session == ST.Life(c'.opts, b, steps + more);
  }

  // ----- all sockets -----

  ghost predicate AllOlder(m: map<Id, Client>, m': map<Id, Client>) {
    forall id | id in m :: id in m' && Older(m[id], m'[id])
  }

  ghost predicate AllLived(m: map<Id, Client>) {
    forall id | id in m :: Lived(m[id])
  }

  /** No countdown is forgotten, and none starts over from other sockets. */
  ghost predicate SameInitials(cs: seq<Countdown>, cs': seq<Countdown>) {
    |cs| <= |cs'| && forall j | 0 <= j < |cs| :: cs'[j].initial == cs[j].initial
  }

  ghost predicate Later(s: State, s': State) {
    && Sound(s'.registry)
    && AllOlder(s.registry.sessions, s'.registry.sessions)
    && (AllLived(s.registry.sessions) ==> AllLived(s'.registry.sessions))
    && SameInitials(s.countdowns, s'.countdowns)
  }

  lemma LaterTrans(s: State, t: State, u: State)
    requires Later(s, t) && Later(t, u)
    ensures Later(s, u)
  {
    forall id | id in s.registry.sessions
      ensures id in u.registry.sessions && Older(s.registry.sessions[id], u.registry.sessions[id])
    {
      OlderTrans(s.registry.sessions[id], t.registry.sessions[id], u.registry.sessions[id]);
    }
  }

  /** Registry and countdowns are as they were, or listen to more. */
  lemma SameSockets(s: State, s': State)
    requires Sound(s.registry) && s'.registry.sessions == s.registry.sessions
    requires SameInitials(s.countdowns, s'.countdowns)
    ensures Later(s, s')
  {
    forall id | id in s.registry.sessions
      ensures Older(s.registry.sessions[id], s.registry.sessions[id])
    {
      OlderSelf(s.registry.sessions[id]);
    }
  }

  lemma {:induction false} TickAllInitials(cs: seq<Countdown>, id: Id)
    ensures |TickAll(cs, id)| == |cs| && SameInitials(cs, TickAll(cs, id))
  {
    if cs != [] {
      TickAllInitials(cs[..|cs| - 1], id);
    }
  }

  /** The server's listeners change no socket. */
  lemma {:induction false} EventsLeaveSockets(cfg: Config, s: State, id: Id, es: seq<S.Event>)
    ensures var s' := OnEvents(cfg, s, id, es);
            s'.registry.sessions == s.registry.sessions && SameInitials(s.countdowns, s'.countdowns)
  {
    if es != [] {
      var s1 := OnEvents(cfg, s, id, es[..|es| - 1]);
      EventsLeaveSockets(cfg, s, id, es[..|es| - 1]);
      TickAllInitials(s1.countdowns, id);
      OnSocketClosedParts(cfg, s1, id);
    }
  }

  lemma OneOlder(s: State, id: Id, step: S.Step)
    requires Sound(s.registry) && id in s.registry.sessions
    ensures Later(s, SetSession(s, id, After(s.registry.sessions[id], step)))
  {
    var c := s.registry.sessions[id];
    StepOlder(c, step);
    UpdateKeepsSound(s.registry, id, After(c, step));
    ReplacedOlder(s.registry.sessions, id, c.(session := After(c, step)));
  }

  lemma ReplacedOlder(m: map<Id, Client>, id: Id, c: Client)
    requires id in m && Older(m[id], c)
    ensures AllOlder(m, m[id := c]) && (AllLived(m) ==> AllLived(m[id := c]))
  {
    forall x | x in m
      ensures Older(m[x], m[id := c][x])
    {
      if x != id {
        OlderSelf(m[x]);
      }
    }
    if AllLived(m) {
      LifeGoesOn(m[id], c);
    }
  }

  lemma SocketLater(cfg: Config, s: State, id: Id, step: S.Step)
    requires Sound(s.registry)
    ensures Later(s, SocketStep(cfg, s, id, step))
  {
    if id in s.registry.sessions {
      var c := s.registry.sessions[id];
      var s1 := SetSession(s, id, After(c, step));
      OneOlder(s, id, step);
      EventsLeaveSockets(cfg, s1, id, NewEvents(c.session, After(c, step)));
      SameSockets(s1, SocketStep(cfg, s, id, step));
      LaterTrans(s, s1, SocketStep(cfg, s, id, step));
    } else {
      SameSockets(s, s);
    }
  }

  lemma {:induction false} EachLater(cfg: Config, s: State, order: seq<Id>, step: S.Step)
    requires Sound(s.registry)
    ensures Later(s, EachSocket(cfg, s, order, step))
    decreases |order|
  {
    if order == [] {
      SameSockets(s, s);
    } else {
      var s1 := SocketStep(cfg, s, order[0], step);
      SocketLater(cfg, s, order[0], step);
      EachLater(cfg, s1, order[1..], step);
      LaterTrans(s, s1, EachSocket(cfg, s, order, step));
    }
  }

  lemma WalkLater(cfg: Config, s: State, order: seq<Id>, some: seq<Id>, step: S.Step)
    requires Sound(s.registry)
    ensures Later(s, Walk(cfg, s, order, some, step))
  {
    if Enumerates(order, s.registry.clients) {
      EachLater(cfg, s, some, step);
    } else {
      SameSockets(s, s);
    }
  }

  lemma AskLater(cfg: Config, s: State, j: nat, id: Id)
    requires Sound(s.registry)
    ensures Later(s, AskToClose(cfg, s, j, id))
  {
    SameSockets(s, s);
    if j < |s.countdowns| {
      var s1 := s.(countdowns := Listen(s.countdowns, j, id));
      SameSockets(s, s1);
      SocketLater(cfg, s1, id, S.DoClose);
      LaterTrans(s, s1, AskToClose(cfg, s, j, id));
    }
  }

  lemma {:induction false} CloseEachLater(cfg: Config, s: State, j: nat, order: seq<Id>)
    requires Sound(s.registry)
    ensures Later(s, CloseEach(cfg, s, j, order))
    decreases |order|
  {
    if order == [] {
      SameSockets(s, s);
    } else {
      var s1 := AskToClose(cfg, s, j, order[0]);
      AskLater(cfg, s, j, order[0]);
      CloseEachLater(cfg, s1, j, order[1..]);
      LaterTrans(s, s1, CloseEach(cfg, s, j, order));
    }
  }

  lemma CloseAllLater(cfg: Config, s: State, order: seq<Id>)
    requires Sound(s.registry)
    ensures Later(s, CloseAll(cfg, s, order))
  {
    var ids := s.registry.clients;
    var s1 := s.(countdowns := s.countdowns + [Countdown(ids, {}, |ids|, if |ids| == 0 then 1 else 0)]);
    SameSockets(s, s1);
    CloseEachLater(cfg, s1, |s.countdowns|, order);
    LaterTrans(s, s1, CloseAll(cfg, s, order));
  }

  // ----- new sockets -----

  lemma NewClientLives(cfg: Config, s: State, r: Request)
    ensures var c := NewClient(cfg, s, r); SI.Inv(c.session) && Lived(c)
  {
    NewClientOpens(cfg, s, r);
    var c := NewClient(cfg, s, r);
    assert c.session == ST.Life(c.opts, ST.Birth(r.upgrade, r.room, r.text, r.now), []);
  }

  lemma AddedSockets(r: Registry, id: Id, c: Client, r': Registry)
    requires Sound(r) && id !in r.sessions && SI.Inv(c.session) && r'.sessions == r.sessions[id := c]
    ensures Sound(r')
  {
    forall x | x in r'.sessions
      ensures SI.Inv(r'.sessions[x].session)
    {
      assert x == id || r'.sessions[x] == r.sessions[x];
    }
  }

  lemma AddedOlder(m: map<Id, Client>, id: Id, c: Client)
    requires id !in m && Lived(c)
    ensures AllOlder(m, m[id := c]) && (AllLived(m) ==> AllLived(m[id := c]))
  {
    forall x | x in m
      ensures Older(m[x], m[id := c][x])
    {
      OlderSelf(m[x]);
    }
  }

  lemma JoinLater(cfg: Config, s: State, id: Id, webSocket: bool, c: Client)
    requires Sound(s.registry) && id !in s.registry.sessions && SI.Inv(c.session) && Lived(c)
    ensures Later(s, Join(cfg, s, id, webSocket, c))
  {
    JoinAdds(cfg, s, id, webSocket, c);
    JoinCountdowns(cfg, s, id, webSocket, c);
    AddedSockets(s.registry, id, c, Join(cfg, s, id, webSocket, c).registry);
    AddedOlder(s.registry.sessions, id, c);
  }

  lemma JoinCountdowns(cfg: Config, s: State, id: Id, webSocket: bool, c: Client)
    ensures Join(cfg, s, id, webSocket, c).countdowns == s.countdowns
  {}

  lemma FirstStepsLater(cfg: Config, s: State, id: Id, poll: bool)
    requires Sound(s.registry)
    ensures Later(s, FirstSteps(cfg, s, id, poll))
  {
    var s1 := if s.metricsEnabled then SocketStep(cfg, s, id, S.EnablePacketCreate) else s;
    SameSockets(s, s);
    SocketLater(cfg, s, id, S.EnablePacketCreate);
    SocketLater(cfg, s1, id, S.PollIn);
    LaterTrans(s, s1, SocketStep(cfg, s1, id, S.PollIn));
  }

  lemma RegisterLater(cfg: Config, s: State, r: Request)
    requires Sound(s.registry) && r.id !in s.registry.sessions
    ensures Later(s, Register(cfg, s, r).0)
  {
    SameSockets(s, s);
    if Register(cfg, s, r).1 == Connected {
      var c := NewClient(cfg, s, r);
      var s1 := Join(cfg, s, r.id, r.upgrade, c);
      NewClientLives(cfg, s, r);
      JoinLater(cfg, s, r.id, r.upgrade, c);
      FirstStepsLater(cfg, s1, r.id, !r.upgrade);
      LaterTrans(s, s1, Settle(cfg, s, r, c));
    }
  }

  lemma ScreenLater(cfg: Config, s: State, address: Option<string>)
    requires Sound(s.registry)
    ensures var s1 := Screen(cfg, s, address).0; Later(s, s1) && s1.registry == s.registry
  {
    SameSockets(s, Screen(cfg, s, address).0);
  }

  lemma ShakeLater(cfg: Config, s: State, address: Option<string>, r: Request)
    requires Sound(s.registry) && r.id !in s.registry.sessions
    ensures Later(s, Handshake(cfg, s, address, r).0)
  {
    var (s1, verdict) := Screen(cfg, s, address);
    ScreenLater(cfg, s, address);
    if verdict == Passed {
      RegisterLater(cfg, s1, r);
      LaterTrans(s, s1, Register(cfg, s1, r).0);
    }
  }

  lemma LateShakeLater(cfg: Config, s: State, r: Request)
    requires Sound(s.registry) && r.id !in s.registry.sessions && s.pending > 0
    ensures Later(s, Apply(cfg, s, ShakeEnds(r)))
  {
    var s1 := s.(pending := s.pending - 1);
    SameSockets(s, s1);
    RegisterLater(cfg, s1, r);
    LaterTrans(s, s1, Register(cfg, s1, r).0);
  }

  // ----- all steps, all runs -----

  lemma ShakeStepLater(cfg: Config, s: State, step: Step)
    requires Sound(s.registry) && (step.Shake? || step.ShakeBegins? || step.ShakeEnds?)
    ensures Later(s, Apply(cfg, s, step))
  {
    SameSockets(s, s);
    match step
    case Shake(address, r) =>
      if !cfg.hook && r.id !in s.registry.sessions {
        ShakeLater(cfg, s, address, r);
      }
    case ShakeBegins(address) => ScreenLater(cfg, s, address);
    case ShakeEnds(r) =>
      if s.pending > 0 && r.id !in s.registry.sessions {
        LateShakeLater(cfg, s, r);
      }
  }

  lemma ListenersLater(cfg: Config, s: State, order: seq<Id>)
    requires Sound(s.registry)
    ensures Later(s, Walk(cfg, s.(metricsEnabled := true), order, order, S.EnablePacketCreate))
  {
    var s1 := s.(metricsEnabled := true);
    SameSockets(s, s1);
    WalkLater(cfg, s1, order, order, S.EnablePacketCreate);
    LaterTrans(s, s1, Walk(cfg, s1, order, order, S.EnablePacketCreate));
  }

  lemma CloseServerLater(cfg: Config, s: State, order: seq<Id>)
    requires Sound(s.registry)
    ensures Later(s, Apply(cfg, s, CloseServer(order)))
  {
    if Enumerates(order, s.registry.clients) {
      CloseAllLater(cfg, s, order);
    } else {
      SameSockets(s, s);
    }
  }

  lemma StepLater(cfg: Config, s: State, step: Step)
    requires Sound(s.registry)
    ensures Later(s, Apply(cfg, s, step))
  {
    match step
    case BudgetTimer => SameSockets(s, RefillBudget(cfg, s));
    case OnSocket(id, step) => SocketLater(cfg, s, id, step);
    case CloseServer(order) => CloseServerLater(cfg, s, order);
    case BroadcastAll(order, data) => WalkLater(cfg, s, order, order, S.DoBroadcast(data));
    case BroadcastBut(order, excluded, data) => WalkLater(cfg, s, order, Without(order, excluded), S.DoBroadcast(data));
    case ReadMetrics(order) =>
      if s.metricsEnabled {
        SameSockets(s, s);
      } else {
        ListenersLater(cfg, s, order);
      }
    case _ => ShakeStepLater(cfg, s, step);
  }

  lemma {:induction false} RunLater(cfg: Config, s: State, steps: seq<Step>)
    requires Sound(s.registry)
    ensures Later(s, Run(cfg, s, steps))
    decreases |steps|
  {
    if steps == [] {
      SameSockets(s, s);
    } else {
      var s1 := Apply(cfg, s, steps[0]);
      StepLater(cfg, s, steps[0]);
      RunLater(cfg, s1, steps[1..]);
      LaterTrans(s, s1, Run(cfg, s, steps));
    }
  }

  lemma {:induction false} RunConcat(cfg: Config, s: State, xs: seq<Step>, ys: seq<Step>)
    ensures Run(cfg, s, xs + ys) == Run(cfg, Run(cfg, s, xs), ys)
    decreases |xs|
  {
    if xs == [] {
      assert xs + ys == ys;
    } else {
      assert (xs + ys)[1..] == xs[1..] + ys;
      RunConcat(cfg, Apply(cfg, s, xs[0]), xs[1..], ys);
    }
  }

  // ----- close() -----

  function Deadline(c: Client): int {
    c.session.heart.lastPong + c.opts.pingInterval + c.opts.pingTimeout
  }

  lemma ClosedStays(c: Client, c': Client)
    requires SI.Inv(c.session) && Older(c, c') && c.session.readyState == CLOSED
    ensures c'.session.readyState == CLOSED
  {
    var more: seq<S.Step> :| c'.session == S.Run(c.opts, c.session, more);
    SS.RunKeeps(c.opts, c.session, more);
  }

  /** Asked to close, and past its deadline, a socket is closed. */
  lemma PastDeadline(c: Client, c': Client)
    requires SI.Inv(c.session) && Lived(c) && Older(c, c') && c.session.readyState != OPEN
    requires c'.session.heart.now > Deadline(c)
    ensures c'.session.readyState == CLOSED
  {
    var b: ST.Birth, steps: seq<S.Step> :| c.session == ST.Life(c.opts, b, steps);
    var more: seq<S.Step> :| c'.session == S.Run(c.opts, c.session, more);
    ST.RunConcat(c.opts, ST.Born(c.opts, b), steps, more);
    ST.LifeInv(c.opts, b, steps);
    ST.BornOpens(c.opts, b);
    if c.session.readyState == CLOSED {
      ClosedStays(c, c');
    } else {
      ST.ClosingSessionCloses(c.opts, b, steps, more);
    }
  }

  /** Every socket a server has made is a session in some run since its handshake. */
  lemma SocketsAreLives(cfg: Config, metricsEnabled: bool, steps: seq<Step>)
    requires 0.0 <= cfg.degradationThreshold
    ensures AllLived(History(cfg, metricsEnabled, steps).registry.sessions)
  {
    InitialKept(cfg, metricsEnabled);
    RunLater(cfg, Initial(cfg, metricsEnabled), steps);
  }

  /**
   * What holds of sessions in every run holds of the sockets of a server in every run: what
   * each has delivered is a prefix of what it accepted, all of it but the backlog while its
   * Bun socket is open, and one that is not CLOSED is within its heartbeat deadline.
   */
  lemma SocketsKeepPromises(cfg: Config, metricsEnabled: bool, steps: seq<Step>, id: Id)
    requires 0.0 <= cfg.degradationThreshold && id in History(cfg, metricsEnabled, steps).registry.sessions
    ensures var c := History(cfg, metricsEnabled, steps).registry.sessions[id];
            var s := c.session;
            && SI.Delivered(s) <= s.out.accepted
            && s.out.accepted == SI.Delivered(s) + s.out.lost + s.out.buffer
            && (s.ws.None? || s.ws.value.link == W.Connected ==> s.out.accepted == SI.Delivered(s) + s.out.buffer)
            && (s.readyState != CLOSED ==> ST.OnTime(c.opts, s.heart))
  {
    SocketsAreLives(cfg, metricsEnabled, steps);
    PromisesOfLives(History(cfg, metricsEnabled, steps).registry.sessions[id]);
  }

  lemma PromisesOfLives(c: Client)
    requires Lived(c)
    ensures var s := c.session;
            && SI.Delivered(s) <= s.out.accepted
            && s.out.accepted == SI.Delivered(s) + s.out.lost + s.out.buffer
            && (s.ws.None? || s.ws.value.link == W.Connected ==> s.out.accepted == SI.Delivered(s) + s.out.buffer)
            && (s.readyState != CLOSED ==> ST.OnTime(c.opts, s.heart))
  {
    var b: ST.Birth, steps: seq<S.Step> :| c.session == ST.Life(c.opts, b, steps);
    ST.DeliveryInOrder(c.opts, b, steps);
    ST.HeartbeatDeadline(c.opts, b, steps);
  }

  /** The clocks of the sockets that were there have all passed the deadlines they had then. */
  ghost predicate AllPast(ids: set<Id>, m: map<Id, Client>, m': map<Id, Client>) {
    forall id | id in ids && id in m && id in m' :: m'[id].session.heart.now > Deadline(m[id])
  }

  lemma NoneLeft(s: State, s': State, ids: set<Id>)
    requires Sound(s.registry) && Later(s, s') && AllLived(s.registry.sessions) && AllAsked(s.registry, ids)
    requires ids <= s.registry.sessions.Keys && AllPast(ids, s.registry.sessions, s'.registry.sessions)
    ensures forall id | id in ids :: !Live(s'.registry, id)
  {
    forall id | id in ids
      ensures !Live(s'.registry, id)
    {
      assert Older(s.registry.sessions[id], s'.registry.sessions[id]);
      PastDeadline(s.registry.sessions[id], s'.registry.sessions[id]);
    }
  }

  /**
   * Whatever its clients do or fail to do, close() resolves: once the clock of each socket
   * has passed the heartbeat deadline it had when it was asked to close, the countdown of
   * that close() is at zero and has resolved, once.
   */
  lemma CloseResolvesInTime(cfg: Config, metricsEnabled: bool, steps: seq<Step>, order: seq<Id>, more: seq<Step>)
    requires 0.0 <= cfg.degradationThreshold
    requires Enumerates(order, History(cfg, metricsEnabled, steps).registry.clients)
    requires var s := History(cfg, metricsEnabled, steps);
             var asked := History(cfg, metricsEnabled, steps + [CloseServer(order)]);
             var later := History(cfg, metricsEnabled, steps + [CloseServer(order)] + more);
             AllPast(s.registry.clients, asked.registry.sessions, later.registry.sessions)
    ensures var j := |History(cfg, metricsEnabled, steps).countdowns|;
            var later := History(cfg, metricsEnabled, steps + [CloseServer(order)] + more);
            j < |later.countdowns| && later.countdowns[j].remaining == 0 && later.countdowns[j].resolved == 1
  {
    var s := History(cfg, metricsEnabled, steps);
    var asked := CloseAll(cfg, s, order);
    var later := Run(cfg, asked, more);
    var j := |s.countdowns|;
    HistoryKept(cfg, metricsEnabled, steps);
    CloseIsStep(cfg, metricsEnabled, steps, order);
    AskedAll(cfg, s, order);
    RunConcat(cfg, Initial(cfg, metricsEnabled), steps + [CloseServer(order)], more);
    HistoryKept(cfg, metricsEnabled, steps + [CloseServer(order)]);
    SocketsAreLives(cfg, metricsEnabled, steps + [CloseServer(order)]);
    RunLater(cfg, asked, more);
    NoneLeft(asked, later, s.registry.clients);
    CloseResolvesAtZero(cfg, metricsEnabled, steps + [CloseServer(order)] + more, j);
    assert (set id | id in s.registry.clients && Live(later.registry, id)) == {};
  }

  /** close(), as a step of the run. */
  lemma CloseIsStep(cfg: Config, metricsEnabled: bool, steps: seq<Step>, order: seq<Id>)
    requires Enumerates(order, History(cfg, metricsEnabled, steps).registry.clients)
    ensures History(cfg, metricsEnabled, steps + [CloseServer(order)]) ==
            CloseAll(cfg, History(cfg, metricsEnabled, steps), order)
  {
    var s := History(cfg, metricsEnabled, steps);
    RunConcat(cfg, Initial(cfg, metricsEnabled), steps, [CloseServer(order)]);
    assert [CloseServer(order)][1..] == [];
    assert Run(cfg, s, [CloseServer(order)]) == Run(cfg, Apply(cfg, s, CloseServer(order)), []);
  }

  lemma ClientsAreSockets(r: Registry)
    requires Registered(r)
    ensures r.clients <= r.sessions.Keys
  {
    forall id | id in r.clients
      ensures id in r.sessions.Keys
    {
      assert Live(r, id);
    }
  }

  lemma AskedAll(cfg: Config, s: State, order: seq<Id>)
    requires Inv(cfg, s) && Enumerates(order, s.registry.clients)
    ensures var asked := CloseAll(cfg, s, order);
            && |asked.countdowns| == |s.countdowns| + 1
            && asked.countdowns[|s.countdowns|].initial == s.registry.clients
            && AllAsked(asked.registry, s.registry.clients) && s.registry.clients <= asked.registry.sessions.Keys
  {
    CloseAllKeeps(cfg, s, order);
    CloseAllLater(cfg, s, order);
    ClientsAreSockets(s.registry);
    StillThere(s, CloseAll(cfg, s, order));
  }

  lemma StillThere(s: State, s': State)
    requires Later(s, s')
    ensures s.registry.sessions.Keys <= s'.registry.sessions.Keys
  {}
}
