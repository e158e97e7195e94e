/** What holds of the server in every run. */
module ServerTheorems {
  import opened Packets
  import opened Transport
  import opened ServerState
  import opened ServerInvariants
  import opened ServerSteps
  import S = Session
  import SI = SessionInvariants
  import SS = SessionSteps
  import SR = SessionRefinement
  import ST = SessionTheorems

  ghost function History(cfg: Config, metricsEnabled: bool, steps: seq<Step>): State {
    Run(cfg, Initial(cfg, metricsEnabled), steps)
  }

  lemma HistoryKept(cfg: Config, metricsEnabled: bool, steps: seq<Step>)
    requires 0.0 <= cfg.degradationThreshold
    ensures Kept(cfg, History(cfg, metricsEnabled, steps))
  {
    InitialKept(cfg, metricsEnabled);
    RunKeeps(cfg, Initial(cfg, metricsEnabled), steps);
  }

  // ----- counters -----

  /**
   * In every run the transport counters are the clients on each transport, their sum
   * is the number of clients, connections are the sockets ever made and disconnections
   * those of them that are no clients any more, and a socket is a client exactly while
   * it is not CLOSED.
   */
  lemma CountersAgree(cfg: Config, metricsEnabled: bool, steps: seq<Step>)
    requires 0.0 <= cfg.degradationThreshold
    ensures var s := History(cfg, metricsEnabled, steps);
            && s.metrics.pollingCount == |Pollers(s.registry)|
            && s.metrics.websocketCount == |Sockets(s.registry)|
            && s.metrics.pollingCount + s.metrics.websocketCount == |s.registry.clients|
            && s.metrics.connections == |s.registry.sessions|
            && s.metrics.disconnections == |s.registry.sessions| - |s.registry.clients|
            && s.metrics.upgrades == |Switched(s.registry)|
            && forall id :: id in s.registry.clients <==> Live(s.registry, id)
  {
    HistoryKept(cfg, metricsEnabled, steps);
    PollersAndSockets(History(cfg, metricsEnabled, steps).registry);
  }

  // ----- degradation and capacity -----

  /**
   * The cached flag is what the load says at any time, the events alternate, starting
   * with active, and whoever was admitted in degraded mode came by WebSocket.
   */
  lemma DegradationFollowsLoad(cfg: Config, metricsEnabled: bool, steps: seq<Step>)
    requires 0.0 <= cfg.degradationThreshold
    ensures var s := History(cfg, metricsEnabled, steps);
            && (s.health.degraded <==>
                  cfg.degradationThreshold > 0.0 && cfg.maxClients > 0 &&
                  |s.registry.clients| as real / cfg.maxClients as real >= cfg.degradationThreshold)
            && (forall i | 0 <= i < |s.health.degradations| :: s.health.degradations[i] <==> i % 2 == 0)
            && (forall i | 0 <= i < |s.registry.admissions| && s.registry.admissions[i].degraded ::
                  s.registry.admissions[i].webSocket)
  {
    HistoryKept(cfg, metricsEnabled, steps);
  }

  /** Without a hook the server is never over capacity. */
  lemma CapacityHolds(cfg: Config, metricsEnabled: bool, steps: seq<Step>)
    requires 0.0 <= cfg.degradationThreshold && !cfg.hook && cfg.maxClients > 0
    ensures |History(cfg, metricsEnabled, steps).registry.clients| <= cfg.maxClients
  {
    HistoryKept(cfg, metricsEnabled, steps);
  }

  /** The second half of a handshake, after the hook, connects a socket. */
  predicate Connects(cfg: Config, s: State, r: Request) {
    !(s.health.degraded && !r.upgrade) && (r.upgrade ==> r.upgradeSucceeds)
  }

  lemma NewPollerPolls(cfg: Config, s: State, r: Request)
    requires !r.upgrade
    ensures var c := NewClient(cfg, s, r).session; c.ws.None? && c.polling.Some? && c.polling.value.pending.None?
  {
    ST.BornTransport(SocketOptions(cfg, s.health.degraded), ST.Birth(r.upgrade, r.room, r.text, r.now));
  }

  /** A socket that can take a poll and does not close by taking part in the metrics. */
  lemma FirstPoll(cfg: Config, s: State, id: Id)
    requires Inv(cfg, s) && id in s.registry.clients && id in s.registry.sessions
    requires var c := s.registry.sessions[id].session;
             c.readyState == OPEN && c.ws.None? && c.polling.Some? && c.polling.value.pending.None?
    ensures SocketStep(cfg, s, id, S.PollIn).registry.clients == s.registry.clients
  {
    var c := s.registry.sessions[id];
    ST.PollKeepsOpen(c.opts, c.session);
    SocketStepKeeps(cfg, s, id, S.PollIn);
  }

  lemma MetricsListen(cfg: Config, s: State, id: Id)
    requires Inv(cfg, s) && id in s.registry.clients && id in s.registry.sessions
    ensures var s' := SocketStep(cfg, s, id, S.EnablePacketCreate);
            && s'.registry.clients == s.registry.clients && id in s'.registry.sessions && Inv(cfg, s')
            && var c, c' := s.registry.sessions[id].session, s'.registry.sessions[id].session;
               c'.readyState == c.readyState && c'.ws == c.ws && c'.polling == c.polling
  {
    AfterEnabling(s.registry.sessions[id]);
    SocketStepKeeps(cfg, s, id, S.EnablePacketCreate);
  }

  lemma AfterEnabling(c: Client)
    ensures After(c, S.EnablePacketCreate) == c.session.(meter := c.session.meter.(packetCreate := true))
  {}

  lemma FirstStepsStay(cfg: Config, s: State, id: Id, poll: bool)
    requires Inv(cfg, s) && id in s.registry.clients && id in s.registry.sessions
    requires var c := s.registry.sessions[id].session;
             c.readyState == OPEN && (poll ==> c.ws.None? && c.polling.Some? && c.polling.value.pending.None?)
    ensures FirstSteps(cfg, s, id, poll).registry.clients == s.registry.clients
  {
    MetricsListen(cfg, s, id);
    if poll {
      FirstPoll(cfg, if s.metricsEnabled then SocketStep(cfg, s, id, S.EnablePacketCreate) else s, id);
    }
  }

  lemma SettledStays(cfg: Config, s: State, r: Request, c: Client)
    requires Inv(cfg, s) && r.id !in s.registry.sessions
    requires Newcomer(cfg, s, r.upgrade, c) && (s.health.degraded ==> r.upgrade)
    requires c.session.readyState == OPEN
    requires !r.upgrade ==> c.session.ws.None? && c.session.polling.Some? && c.session.polling.value.pending.None?
    ensures Settle(cfg, s, r, c).registry.clients == s.registry.clients + {r.id}
  {
    JoinKeeps(cfg, s, r.id, r.upgrade, c);
    JoinAdds(cfg, s, r.id, r.upgrade, c);
    FirstStepsStay(cfg, Join(cfg, s, r.id, r.upgrade, c), r.id, !r.upgrade);
  }

  /** A new socket is still there when its handshake is done. */
  lemma ConnectedStays(cfg: Config, s: State, r: Request)
    requires Inv(cfg, s) && r.id !in s.registry.sessions && Connects(cfg, s, r)
    ensures Register(cfg, s, r).0.registry.clients == s.registry.clients + {r.id}
  {
    NewClientOpens(cfg, s, r);
    if !r.upgrade {
      NewPollerPolls(cfg, s, r);
    }
    SettledStays(cfg, s, r, NewClient(cfg, s, r));
  }

  /** The step ends a handshake that waited for the hook, and connects a new socket. */
  predicate ConnectsLate(cfg: Config, s: State, step: Step) {
    step.ShakeEnds? && s.pending > 0 && step.request.id !in s.registry.sessions && Connects(cfg, s, step.request)
  }

  lemma OtherStepsFit(cfg: Config, s: State, step: Step)
    requires Kept(cfg, s) && cfg.hook && !step.ShakeEnds?
    ensures |Apply(cfg, s, step).registry.clients| <= |s.registry.clients|
  {
    match step
    case Shake(_, _) =>
    case ShakeBegins(address) => ScreenKeeps(cfg, s, address);
    case BudgetTimer =>
    case OnSocket(id, step) => SocketShrinks(cfg, s, id, step);
    case CloseServer(order) =>
      if Enumerates(order, s.registry.clients) {
        CloseShrinks(cfg, s, order);
      }
    case ReadMetrics(order) => WalkShrinks(cfg, s.(metricsEnabled := true), order, order, S.EnablePacketCreate);
    case BroadcastAll(order, data) => WalkShrinks(cfg, s, order, order, S.DoBroadcast(data));
    case BroadcastBut(order, excluded, data) =>
      WalkShrinks(cfg, s, order, Without(order, excluded), S.DoBroadcast(data));
  }

  lemma SocketShrinks(cfg: Config, s: State, id: Id, step: S.Step)
    requires Inv(cfg, s)
    ensures |SocketStep(cfg, s, id, step).registry.clients| <= |s.registry.clients|
  {
    AnySocketStepKeeps(cfg, s, id, step);
    SubsetFits(SocketStep(cfg, s, id, step).registry.clients, s.registry.clients);
  }

  lemma CloseShrinks(cfg: Config, s: State, order: seq<Id>)
    requires Inv(cfg, s) && Enumerates(order, s.registry.clients)
    ensures |CloseAll(cfg, s, order).registry.clients| <= |s.registry.clients|
  {
    CloseAllKeeps(cfg, s, order);
    SubsetFits(CloseAll(cfg, s, order).registry.clients, s.registry.clients);
  }

  lemma WalkShrinks(cfg: Config, s: State, order: seq<Id>, some: seq<Id>, step: S.Step)
    requires Inv(cfg, s)
    ensures |Walk(cfg, s, order, some, step).registry.clients| <= |s.registry.clients|
  {
    if Enumerates(order, s.registry.clients) {
      EachSocketKeeps(cfg, s, some, step);
      SubsetFits(EachSocket(cfg, s, some, step).registry.clients, s.registry.clients);
    }
  }

  lemma NotConnected(cfg: Config, s: State, r: Request)
    requires !Connects(cfg, s, r)
    ensures Register(cfg, s, r).0 == s
  {}

  lemma LateStepClients(cfg: Config, s: State, r: Request)
    requires Inv(cfg, s) && r.id !in s.registry.sessions
    ensures Register(cfg, s, r).0.registry.clients == s.registry.clients + (if Connects(cfg, s, r) then {r.id} else {})
  {
    if Connects(cfg, s, r) {
      ConnectedStays(cfg, s, r);
    } else {
      NotConnected(cfg, s, r);
    }
  }

  lemma LateStepFits(cfg: Config, s: State, r: Request)
    requires Kept(cfg, s) && s.pending > 0 && r.id !in s.registry.sessions
    ensures |Apply(cfg, s, ShakeEnds(r)).registry.clients| ==
            |s.registry.clients| + (if Connects(cfg, s, r) then 1 else 0)
  {
    assert !Live(s.registry, r.id);
    var s1 := s.(pending := s.pending - 1);
    LateStepClients(cfg, s1, r);
    assert Apply(cfg, s, ShakeEnds(r)).registry.clients ==
           s.registry.clients + (if Connects(cfg, s1, r) then {r.id} else {});
  }

  /**
   * With a hook, capacity is exceeded exactly by a handshake that was let through
   * before the hook and finds the server full after it: nobody looks again.
   */
  lemma CapacityWithHook(cfg: Config, metricsEnabled: bool, steps: seq<Step>, step: Step)
    requires 0.0 <= cfg.degradationThreshold && cfg.hook && cfg.maxClients > 0
    requires |History(cfg, metricsEnabled, steps).registry.clients| <= cfg.maxClients
    ensures var s := History(cfg, metricsEnabled, steps);
            |Apply(cfg, s, step).registry.clients| > cfg.maxClients <==>
            ConnectsLate(cfg, s, step) && |s.registry.clients| == cfg.maxClients
  {
    var s := History(cfg, metricsEnabled, steps);
    HistoryKept(cfg, metricsEnabled, steps);
    if step.ShakeEnds? {
      if s.pending > 0 && step.request.id !in s.registry.sessions {
        LateStepFits(cfg, s, step.request);
      }
    } else {
      OtherStepsFit(cfg, s, step);
    }
  }

  lemma LetThrough(cfg: Config, s: State)
    requires cfg.hook && cfg.maxHandshakesPerSecond == 0 && cfg.maxHandshakesPerIp == 0
    requires cfg.maxClients == 0 || |s.registry.clients| < cfg.maxClients
    ensures var s' := Apply(cfg, s, ShakeBegins(None)); s'.registry == s.registry && s'.pending == s.pending + 1
  {}

  lemma LateClient(cfg: Config, s: State, r: Request)
    requires Kept(cfg, s) && s.pending > 0 && cfg.degradationThreshold == 0.0
    requires r.id !in s.registry.clients && r.id !in s.registry.sessions && r.upgrade && r.upgradeSucceeds
    ensures var s' := Apply(cfg, s, ShakeEnds(r));
            && Kept(cfg, s') && s'.pending == s.pending - 1
            && |s'.registry.clients| == |s.registry.clients| + 1
            && s'.registry.sessions.Keys <= s.registry.sessions.Keys + {r.id}
  {
    assert Connects(cfg, s, r);
    ShakeEndsKeeps(cfg, s, r);
    LateStepFits(cfg, s, r);
  }

  lemma TwoLateClients(cfg: Config, s: State, r0: Request, r1: Request)
    requires Kept(cfg, s) && s.pending > 1 && cfg.degradationThreshold == 0.0
    requires s.registry.sessions == map[] && s.registry.clients == {}
    requires r0.id != r1.id && r0.upgrade && r0.upgradeSucceeds && r1.upgrade && r1.upgradeSucceeds
    ensures |Apply(cfg, Apply(cfg, s, ShakeEnds(r0)), ShakeEnds(r1)).registry.clients| == 2
  {
    var s1 := Apply(cfg, s, ShakeEnds(r0));
    LateClient(cfg, s, r0);
    assert !Live(s1.registry, r1.id);
    LateClient(cfg, s1, r1);
  }

  /** Two handshakes wait for the hook together, and a server for one client has two. */
  lemma CapacityExceededExample(cfg: Config, r0: Request, r1: Request)
    requires cfg.hook && cfg.maxClients == 1 && cfg.degradationThreshold == 0.0
    requires cfg.maxHandshakesPerSecond == 0 && cfg.maxHandshakesPerIp == 0
    requires r0.id != r1.id && r0.upgrade && r0.upgradeSucceeds && r1.upgrade && r1.upgradeSucceeds
    ensures var steps := [ShakeBegins(None), ShakeBegins(None), ShakeEnds(r0), ShakeEnds(r1)];
            |History(cfg, false, steps).registry.clients| == 2
  {
    var s0 := Initial(cfg, false);
    var s1 := Apply(cfg, s0, ShakeBegins(None));
    InitialKept(cfg, false);
    LetThrough(cfg, s0);
    ShakeBeginsKeeps(cfg, s0, None);
    LetThrough(cfg, s1);
    ShakeBeginsKeeps(cfg, s1, None);
    TwoLateClients(cfg, Apply(cfg, s1, ShakeBegins(None)), r0, r1);
    FourSteps(cfg, s0, [ShakeBegins(None), ShakeBegins(None), ShakeEnds(r0), ShakeEnds(r1)]);
  }

  lemma FourSteps(cfg: Config, s: State, steps: seq<Step>)
    requires |steps| == 4
    ensures Run(cfg, s, steps) ==
            Apply(cfg, Apply(cfg, Apply(cfg, Apply(cfg, s, steps[0]), steps[1]), steps[2]), steps[3])
  {
    assert steps[1..][1..] == steps[2..] && steps[2..][1..] == steps[3..] && steps[3..][1..] == [];
    var s1 := Apply(cfg, s, steps[0]);
    var s2 := Apply(cfg, s1, steps[1]);
    var s3 := Apply(cfg, s2, steps[2]);
    assert Run(cfg, s, steps) == Run(cfg, s1, steps[1..]);
    assert Run(cfg, s1, steps[1..]) == Run(cfg, s2, steps[2..]);
    assert Run(cfg, s2, steps[2..]) == Run(cfg, s3, steps[3..]);
    assert Run(cfg, s3, steps[3..]) == Run(cfg, Apply(cfg, s3, steps[3]), []);
  }

  // ----- close() -----

  lemma {:induction false} CountingAt(cs: seq<Countdown>, clients: set<Id>, ids: set<Id>, j: nat)
    requires AllCounting(cs, clients, ids) && j < |cs|
    ensures Counting(cs[j], clients, ids)
  {
    if j < |cs| - 1 {
      CountingAt(cs[..|cs| - 1], clients, ids, j);
    }
  }

  /**
   * The countdown waits for those of its first sockets that are not CLOSED, and resolved,
   * once, when there was none.
   */
  ghost predicate CountsRest(c: Countdown, r: Registry) {
    var left := set id | id in c.initial && Live(r, id);
    c.remaining == |left| && c.resolved == (if left == {} then 1 else 0)
  }

  lemma CountingIsRest(c: Countdown, r: Registry, ids: set<Id>)
    requires Registered(r) && Counting(c, r.clients, ids)
    ensures CountsRest(c, r)
  {
    assert (set id | id in c.initial && Live(r, id)) == c.initial * r.clients;
  }

  /**
   * At any time each close() waits for exactly those of its first clients that are not
   * closed yet, and has resolved, once, exactly when there is none left.
   */
  lemma CloseResolvesAtZero(cfg: Config, metricsEnabled: bool, steps: seq<Step>, j: nat)
    requires 0.0 <= cfg.degradationThreshold && j < |History(cfg, metricsEnabled, steps).countdowns|
    ensures var s := History(cfg, metricsEnabled, steps); CountsRest(s.countdowns[j], s.registry)
  {
    var s := History(cfg, metricsEnabled, steps);
    HistoryKept(cfg, metricsEnabled, steps);
    CountingAt(s.countdowns, s.registry.clients, s.registry.sessions.Keys, j);
    CountingIsRest(s.countdowns[j], s.registry, s.registry.sessions.Keys);
  }

  /** One more countdown, over all clients of s, and none of them is OPEN any more. */
  ghost predicate AsksAll(s: State, s': State) {
    && |s'.countdowns| == |s.countdowns| + 1 && s'.countdowns[|s.countdowns|].initial == s.registry.clients
    && forall id | id in s.registry.clients && id in s'.registry.sessions ::
         s'.registry.sessions[id].session.readyState != OPEN
  }

  lemma ClosedUpAsks(cfg: Config, s: State, order: seq<Id>)
    requires Inv(cfg, s) && Enumerates(order, s.registry.clients)
    ensures AsksAll(s, CloseAll(cfg, s, order))
  {
    CloseAllKeeps(cfg, s, order);
  }

  lemma CloseServerStep(cfg: Config, s: State, order: seq<Id>)
    requires Enumerates(order, s.registry.clients)
    ensures Apply(cfg, s, CloseServer(order)) == CloseAll(cfg, s, order)
  {}

  /** close() starts with all clients and asks each of them to close. */
  lemma CloseAsksAll(cfg: Config, metricsEnabled: bool, steps: seq<Step>, order: seq<Id>)
    requires 0.0 <= cfg.degradationThreshold
    requires Enumerates(order, History(cfg, metricsEnabled, steps).registry.clients)
    ensures var s := History(cfg, metricsEnabled, steps); AsksAll(s, Apply(cfg, s, CloseServer(order)))
  {
    var s := History(cfg, metricsEnabled, steps);
    HistoryKept(cfg, metricsEnabled, steps);
    ClosedUpAsks(cfg, s, order);
    CloseServerStep(cfg, s, order);
  }

  // ----- broadcast -----

  /** Sending and being watched report nothing, so the server hears nothing of it. */
  predicate IsSilent(step: S.Step) {
    step.DoWrite? || step.DoBroadcast? || step.EnablePacketCreate?
  }

  lemma SilentStep(cfg: Config, s: State, id: Id, step: S.Step)
    requires Sound(s.registry) && id in s.registry.sessions && IsSilent(step)
    ensures SocketStep(cfg, s, id, step) == SetSession(s, id, After(s.registry.sessions[id], step))
    ensures SI.Inv(After(s.registry.sessions[id], step))
  {
    var c := s.registry.sessions[id];
    SS.StepKeeps(c.opts, c.session, step);
    if step.DoWrite? {
      SS.WriteKeeps(c.opts, c.session, step.data);
    } else if step.DoBroadcast? {
      SS.BroadcastKeeps(c.opts, c.session, step.data);
    }
    assert NewEvents(c.session, After(c, step)) == [];
  }

  /** Each listed socket takes the step once, on its own. */
  ghost predicate Each(s: State, s': State, ids: set<Id>, step: S.Step) {
    && s' == s.(registry := s'.registry)
    && s'.registry.clients == s.registry.clients && s'.registry.admissions == s.registry.admissions
    && s'.registry.sessions.Keys == s.registry.sessions.Keys
    && forall id | id in s.registry.sessions && id in s'.registry.sessions ::
         s'.registry.sessions[id] ==
         (if id in ids then s.registry.sessions[id].(session := After(s.registry.sessions[id], step))
          else s.registry.sessions[id])
  }

  lemma OneOfEach(s: State, id: Id, step: S.Step)
    requires id in s.registry.sessions
    ensures Each(s, SetSession(s, id, After(s.registry.sessions[id], step)), {id}, step)
  {}

  lemma EachAndRest(s: State, s1: State, s2: State, id: Id, rest: set<Id>, step: S.Step)
    requires Each(s, s1, {id}, step) && Each(s1, s2, rest, step) && id !in rest
    ensures Each(s, s2, rest + {id}, step)
  {}

  lemma EachFirst(cfg: Config, s: State, id: Id, step: S.Step)
    requires Sound(s.registry) && id in s.registry.sessions && IsSilent(step)
    ensures var s1 := SocketStep(cfg, s, id, step);
            Each(s, s1, {id}, step) && Sound(s1.registry) && s1.registry.sessions.Keys == s.registry.sessions.Keys
  {
    SilentStep(cfg, s, id, step);
    UpdateKeepsSound(s.registry, id, After(s.registry.sessions[id], step));
    OneOfEach(s, id, step);
  }

  lemma EachStep(s: State, order: seq<Id>, step: S.Step, s1: State, s2: State)
    requires Distinct(order) && order != []
    requires Each(s, s1, {order[0]}, step) && Each(s1, s2, Members(order[1..]), step)
    ensures Each(s, s2, Members(order), step)
  {
    FirstAndRest(order);
    EachAndRest(s, s1, s2, order[0], Members(order[1..]), step);
    assert Members(order[1..]) + {order[0]} == Members(order);
  }

  lemma {:induction false} EachSocketEach(cfg: Config, s: State, order: seq<Id>, step: S.Step)
    requires Sound(s.registry) && Distinct(order) && Members(order) <= s.registry.sessions.Keys
    requires IsSilent(step)
    ensures Each(s, EachSocket(cfg, s, order, step), Members(order), step)
    decreases |order|
  {
    if order != [] {
      assert order[0] in Members(order);
      FirstAndRest(order);
      EachFirst(cfg, s, order[0], step);
      var s1 := SocketStep(cfg, s, order[0], step);
      EachSocketEach(cfg, s1, order[1..], step);
      EachStep(s, order, step, s1, EachSocket(cfg, s1, order[1..], step));
    }
  }

  /** Two servers agree but for the packets that observers of sockets see. */
  ghost predicate SameServer(a: State, b: State) {
    && a == b.(registry := a.registry)
    && a.registry.clients == b.registry.clients && a.registry.sessions.Keys == b.registry.sessions.Keys
    && forall id | id in a.registry.sessions && id in b.registry.sessions ::
         SR.Same(a.registry.sessions[id].session, b.registry.sessions[id].session)
  }

  ghost predicate Reaches(r: Registry, ids: set<Id>) {
    forall id | id in ids && id in r.sessions :: SR.BroadcastReaches(r.sessions[id].session)
  }

  lemma WithoutMembers(order: seq<Id>, id: Id)
    requires Distinct(order)
    ensures Distinct(Without(order, id)) && Members(Without(order, id)) == Members(order) - {id}
  {
    if order != [] {
      FirstAndRest(order);
      WithoutMembers(order[1..], id);
      var rest := Without(order[1..], id);
      assert order[0] !in Members(rest);
      if order[0] != id {
        assert Without(order, id) == [order[0]] + rest;
        assert Members(Without(order, id)) == {order[0]} + Members(rest);
      } else {
        assert Without(order, id) == rest;
      }
    }
  }

  lemma EachCompared(s: State, a: State, b: State, ids: set<Id>, data: RawData)
    requires Sound(s.registry) && ids <= s.registry.sessions.Keys
    requires Each(s, a, ids, S.DoBroadcast(data)) && Each(s, b, ids, S.DoWrite(data))
    ensures SameServer(a, b) <==> Reaches(s.registry, ids)
  {
    forall id | id in ids
      ensures SR.Same(a.registry.sessions[id].session, b.registry.sessions[id].session) <==>
              SR.BroadcastReaches(s.registry.sessions[id].session)
    {
      var c := s.registry.sessions[id];
      SR.BroadcastIsWrite(c.opts, c.session, data);
    }
  }

  lemma BroadcastSteps(cfg: Config, s: State, order: seq<Id>, excluded: Id, data: RawData)
    requires Enumerates(order, s.registry.clients)
    ensures Apply(cfg, s, BroadcastAll(order, data)) == EachSocket(cfg, s, order, S.DoBroadcast(data))
    ensures Apply(cfg, s, BroadcastBut(order, excluded, data)) ==
            EachSocket(cfg, s, Without(order, excluded), S.DoBroadcast(data))
  {}

  /** The broadcast a does what the writes b do, exactly when it reaches these clients. */
  ghost predicate WritesToEach(s: State, a: State, b: State, ids: set<Id>) {
    SameServer(a, b) <==> Reaches(s.registry, ids)
  }

  /**
   * A broadcast is a write to each client, the excluded one left out, exactly when
   * every client on a WebSocket has a writable transport and a socket that still
   * accepts; the others are counted as sent to without being sent anything.
   */
  lemma BroadcastIsWriteToEach(cfg: Config, metricsEnabled: bool, steps: seq<Step>,
                               order: seq<Id>, excluded: Id, data: RawData)
    requires 0.0 <= cfg.degradationThreshold
    requires Enumerates(order, History(cfg, metricsEnabled, steps).registry.clients)
    ensures var s := History(cfg, metricsEnabled, steps);
            && WritesToEach(s, Apply(cfg, s, BroadcastAll(order, data)), EachSocket(cfg, s, order, S.DoWrite(data)),
                            s.registry.clients)
            && WritesToEach(s, Apply(cfg, s, BroadcastBut(order, excluded, data)),
                            EachSocket(cfg, s, Without(order, excluded), S.DoWrite(data)),
                            s.registry.clients - {excluded})
  {
    var s := History(cfg, metricsEnabled, steps);
    HistoryKept(cfg, metricsEnabled, steps);
    assert Members(order) == s.registry.clients;
    BroadcastSteps(cfg, s, order, excluded, data);
    BroadcastCompared(cfg, s, order, data);
    WithoutMembers(order, excluded);
    BroadcastCompared(cfg, s, Without(order, excluded), data);
  }

  lemma BroadcastCompared(cfg: Config, s: State, order: seq<Id>, data: RawData)
    requires Inv(cfg, s) && Distinct(order) && Members(order) <= s.registry.clients
    ensures WritesToEach(s, EachSocket(cfg, s, order, S.DoBroadcast(data)), EachSocket(cfg, s, order, S.DoWrite(data)),
                         Members(order))
  {
    forall id | id in s.registry.clients
      ensures id in s.registry.sessions.Keys
    {
      assert Live(s.registry, id);
    }
    EachSocketEach(cfg, s, order, S.DoBroadcast(data));
    EachSocketEach(cfg, s, order, S.DoWrite(data));
    EachCompared(s, EachSocket(cfg, s, order, S.DoBroadcast(data)), EachSocket(cfg, s, order, S.DoWrite(data)),
                 Members(order), data);
  }

  /** These sockets are watched, and the rest of the server is as it was. */
  ghost predicate AllWatched(s: State, s': State, ids: set<Id>) {
    && s' == s.(registry := s'.registry) && s'.registry.clients == s.registry.clients
    && s'.registry.sessions.Keys == s.registry.sessions.Keys
    && forall id | id in s.registry.sessions && id in s'.registry.sessions ::
         var c, c' := s.registry.sessions[id], s'.registry.sessions[id];
         c' == (if id in ids then c.(session := c.session.(meter := c.session.meter.(packetCreate := true))) else c)
  }

  lemma EnabledIsWatched(s: State, s': State, ids: set<Id>)
    requires Each(s, s', ids, S.EnablePacketCreate)
    ensures AllWatched(s, s', ids)
  {
    forall id | id in s.registry.sessions && id in s'.registry.sessions && id in ids
      ensures var c := s.registry.sessions[id];
              s'.registry.sessions[id] == c.(session := c.session.(meter := c.session.meter.(packetCreate := true)))
    {
      AfterEnabling(s.registry.sessions[id]);
    }
  }

  /** The first read of the metrics has every client watched from then on, and changes nothing else. */
  lemma MetricsWatchAll(cfg: Config, metricsEnabled: bool, steps: seq<Step>, order: seq<Id>)
    requires 0.0 <= cfg.degradationThreshold
    requires var s := History(cfg, metricsEnabled, steps); !s.metricsEnabled && Enumerates(order, s.registry.clients)
    ensures var s := History(cfg, metricsEnabled, steps);
            AllWatched(s.(metricsEnabled := true), Apply(cfg, s, ReadMetrics(order)), s.registry.clients)
  {
    HistoryKept(cfg, metricsEnabled, steps);
    ReadingWatches(cfg, History(cfg, metricsEnabled, steps), order);
  }

  lemma ReadingWatches(cfg: Config, s: State, order: seq<Id>)
    requires Inv(cfg, s) && !s.metricsEnabled && Enumerates(order, s.registry.clients)
    ensures AllWatched(s.(metricsEnabled := true), Apply(cfg, s, ReadMetrics(order)), s.registry.clients)
  {
    AllEnabled(cfg, s.(metricsEnabled := true), order);
  }

  lemma AllEnabled(cfg: Config, s: State, order: seq<Id>)
    requires Inv(cfg, s) && Enumerates(order, s.registry.clients)
    ensures AllWatched(s, Walk(cfg, s, order, order, S.EnablePacketCreate), s.registry.clients)
  {
    assert Members(order) == s.registry.clients;
    forall id | id in s.registry.clients
      ensures id in s.registry.sessions.Keys
    {
      assert Live(s.registry, id);
    }
    EachSocketEach(cfg, s, order, S.EnablePacketCreate);
    EnabledIsWatched(s, EachSocket(cfg, s, order, S.EnablePacketCreate), s.registry.clients);
  }
}
