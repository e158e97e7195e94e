/**
 * The server object: the clients map holds socket objects, and the listeners on their
 * events keep counters, flag and countdowns. Every method is tied to the state machine:
 * `Abs` is the abstract value.
 */
module Server {
  import opened Packets
  import opened Transport
  import opened ServerState
  import F = Fleet
  import S = Session
  import M = Metrics
  import P = PollingTransport
  import W = WebSocketTransport
  import K = Socket
  import Parser

  lemma ListeningIsSilent(cfg: Config, s: State, id: Id)
    requires id in s.registry.sessions
    ensures var c := s.registry.sessions[id].session;
            SocketStep(cfg, s, id, S.EnablePacketCreate) ==
            SetSession(s, id, c.(meter := c.meter.(packetCreate := true)))
  {
    var c := s.registry.sessions[id];
    assert NewEvents(c.session, After(c, S.EnablePacketCreate)) == [];
  }

  /** On a walk through `ids`, `order` has been visited and `rest` has not. */
  ghost predicate Walked(order: seq<Id>, ids: set<Id>, rest: set<Id>) {
    rest <= ids && Enumerates(order, ids - rest)
  }

  lemma WalkedPush(order: seq<Id>, ids: set<Id>, rest: set<Id>, id: Id)
    requires Walked(order, ids, rest) && id in rest
    ensures Walked(order + [id], ids, rest - {id})
  {
    assert ids - (rest - {id}) == ids - rest + {id};
  }

  lemma BroadcastStep(cfg: Config, s: State, id: Id, data: RawData)
    requires id in s.registry.sessions
    ensures var c := s.registry.sessions[id];
            SocketStep(cfg, s, id, S.DoBroadcast(data)) == SocketMoves(cfg, s, id, S.Broadcast(c.opts, c.session, data))
  {}

  lemma PollStep(cfg: Config, s: State, id: Id)
    requires id in s.registry.sessions
    ensures var c := s.registry.sessions[id];
            SocketStep(cfg, s, id, S.PollIn) == SocketMoves(cfg, s, id, S.PollArrives(c.opts, c.session))
  {}

  lemma CloseStep(cfg: Config, s: State, id: Id)
    requires id in s.registry.sessions
    ensures SocketStep(cfg, s, id, S.DoClose) ==
            SocketMoves(cfg, s, id, S.CloseSession(s.registry.sessions[id].session))
  {}

  /** Removing or keeping `id`, the other keys stay. */
  lemma KeysKept(clients: map<Id, K.Socket>, rest: set<Id>, id: Id)
    requires rest <= clients.Keys
    ensures rest - {id} <= (clients - {id}).Keys
  {}

  /** One socket more, in the map. */
  function Grown(r: Registry, id: Id, c: Client, a: Admission): Registry {
    Registry(r.sessions[id := c], r.clients + {id}, r.admissions + [a])
  }

  class Server {
    const cfg: Config
    const metrics: M.ServerMetrics

    var clients: map<Id, K.Socket>
    /** Every socket made so far, as the state machine has it, and the objects of the clients. */
    ghost var registry: Registry
    ghost var Parts: set<object>

    var metricsEnabled: bool
    var degraded: bool
    var degradations: seq<bool>
    var handshakeTokens: int
    var ipHandshakeCounts: map<string, nat>
    ghost var window: seq<Option<string>>
    var pending: nat
    var countdowns: seq<Countdown>

    ghost function Abs(): State
      reads this, metrics
    {
      State(registry, metrics.Abs(), metricsEnabled, Health(degraded, degradations),
            Budget(handshakeTokens, ipHandshakeCounts, window), pending, countdowns)
    }

    ghost predicate Valid()
      reads this`clients, this`registry, this`Parts, Parts
    {
      F.Owned({this, metrics}, clients, registry, Parts)
    }

    constructor (cfg: Config, metricsEnabled: bool)
      ensures Valid() && fresh(Parts) && fresh(metrics) && this.cfg == cfg && Abs() == Initial(cfg, metricsEnabled)
    {
      this.cfg := cfg;
      metrics := new M.ServerMetrics();
      clients, registry, Parts := map[], Registry(map[], {}, []), {};
      this.metricsEnabled := metricsEnabled;
      degraded, degradations := false, [];
      handshakeTokens, ipHandshakeCounts, window := cfg.maxHandshakesPerSecond, map[], [];
      pending, countdowns := 0, [];
    }

    method UpdateDegradationState()
      requires Valid()
      modifies this`degraded, this`degradations
      ensures Valid() && Abs() == UpdateDegradation(cfg, old(Abs()))
    {
      if cfg.degradationThreshold <= 0.0 || cfg.maxClients <= 0 {
        return;
      }
      assert |clients| == |clients.Keys|;
      var loaded := Loaded(cfg, |clients|);
      if loaded != degraded {
        degraded := loaded;
        degradations := degradations + [loaded];
      }
    }

    // ----- listeners on a socket -----

    method OnUpgrade(id: Id)
      requires Valid()
      modifies metrics
      ensures Valid() && Abs() == OnEvent(cfg, old(Abs()), id, S.UpgradeDone)
    {
      metrics.CountUpgrade();
    }

    /** The countdowns of close() that listen to the socket. */
    method TickCountdowns(id: Id)
      requires Valid()
      modifies this`countdowns
      ensures Valid() && Abs() == old(Abs()).(countdowns := TickAll(old(countdowns), id))
    {
      var ticked: seq<Countdown> := [];
      for i := 0 to |countdowns|
        invariant ticked == TickAll(countdowns[..i], id)
      {
        assert countdowns[..i + 1][..i] == countdowns[..i];
        var c := countdowns[i];
        if id in c.listening {
          var left := c.remaining - 1;
          c := c.(listening := c.listening - {id}, remaining := left,
              resolved := c.resolved + (if left == 0 then 1 else 0));
        }
        ticked := ticked + [c];
      }
      assert countdowns[..|countdowns|] == countdowns;
      countdowns := ticked;
    }

    method RemoveClient(id: Id)
      requires Valid()
      modifies this`clients, this`registry
      ensures Valid() && clients - {id} == old(clients) - {id} && registry.sessions == old(registry).sessions
      ensures Abs() == old(Abs()).(registry := old(registry).(clients := old(registry).clients - {id}))
    {
      F.RemoveReady(clients, registry, Parts, id);
      clients := clients - {id};
      registry := registry.(clients := registry.clients - {id});
    }

    /** Out of the map and the counters. */
    method Leave(id: Id, webSocket: bool)
      requires Valid() && webSocket == OnWebSocket(registry, id)
      modifies this`clients, this`registry, metrics
      ensures Valid() && clients - {id} == old(clients) - {id} && registry.sessions == old(registry).sessions
      ensures Abs() == Departed(old(Abs()), id)
    {
      RemoveClient(id);
      CountGone(webSocket);
    }

    method CountGone(webSocket: bool)
      requires Valid()
      modifies metrics
      ensures Valid() && Abs() == old(Abs()).(metrics := M.OnDisconnection(old(Abs()).metrics, webSocket))
    {
      metrics.CountDisconnection(webSocket);
    }

    method Reassess(id: Id)
      requires Valid()
      modifies this`degraded, this`degradations, this`countdowns
      ensures Valid()
      ensures Abs() == UpdateDegradation(cfg, old(Abs())).(countdowns := TickAll(old(countdowns), id))
    {
      UpdateDegradationState();
      TickCountdowns(id);
    }

    /** The "close" listener of the handshake, then those of close(). */
    method OnClose(id: Id, webSocket: bool)
      requires Valid() && webSocket == OnWebSocket(registry, id)
      modifies this`clients, this`registry, this`degraded, this`degradations, this`countdowns, metrics
      ensures Valid() && clients - {id} == old(clients) - {id} && registry.sessions == old(registry).sessions
      ensures Abs() == OnSocketClosed(cfg, old(Abs()), id)
    {
      Leave(id, webSocket);
      Reassess(id);
    }

    method HandleEvent(id: Id, webSocket: bool, e: S.Event)
      requires Valid() && webSocket == OnWebSocket(registry, id)
      modifies this`clients, this`registry, this`degraded, this`degradations, this`countdowns, metrics
      ensures Valid() && webSocket == OnWebSocket(registry, id)
      ensures Abs() == OnEvent(cfg, old(Abs()), id, e)
      ensures clients - {id} == old(clients) - {id}
    {
      match e
      case UpgradeDone => OnUpgrade(id);
      case Closed(_) => OnClose(id, webSocket);
      case _ =>
    }

    /** What a socket reported, event by event. */
    method HandleEvents(id: Id, webSocket: bool, es: seq<S.Event>)
      requires Valid() && webSocket == OnWebSocket(registry, id)
      modifies this`clients, this`registry, this`degraded, this`degradations, this`countdowns, metrics
      ensures Valid() && Abs() == OnEvents(cfg, old(Abs()), id, es)
      ensures clients - {id} == old(clients) - {id}
    {
      ghost var before := Abs();
      for i := 0 to |es|
        invariant Valid() && webSocket == OnWebSocket(registry, id)
        invariant Abs() == OnEvents(cfg, before, id, es[..i])
        invariant clients - {id} == old(clients) - {id}
      {
        assert es[..i + 1][..i] == es[..i];
        HandleEvent(id, webSocket, es[i]);
      }
      assert es[..|es|] == es;
    }

    /** What a client has reported since the first `seen` events, and whether it is on a WebSocket. */
    method Reported(id: Id, seen: nat) returns (es: seq<S.Event>, webSocket: bool)
      requires Valid() && id in clients
      ensures webSocket == OnWebSocket(registry, id)
      ensures id in registry.sessions && es == Since(registry.sessions[id].session.log.events, seen)
    {
      var socket := clients[id];
      F.SocketRecorded(clients, registry, Parts, id);
      webSocket := socket.wsTransport != null;
      es := Since(socket.events, seen);
    }

    /** The listeners hear what a client has reported since the first `seen` events. */
    method Notice(id: Id, seen: nat)
      requires Valid() && id in clients
      modifies this`clients, this`registry, this`degraded, this`degradations, this`countdowns, metrics
      ensures Valid() && clients - {id} == old(clients) - {id}
      ensures id in old(registry).sessions
      ensures Abs() == OnEvents(cfg, old(Abs()), id, Since(old(registry).sessions[id].session.log.events, seen))
    {
      var es, webSocket := Reported(id, seen);
      HandleEvents(id, webSocket, es);
    }

    /** A client takes a step, and the listeners hear of it. */
    method Deliver(id: Id, step: S.Step)
      requires Valid() && id in clients
      modifies this, metrics, Parts
      ensures Valid() && fresh(Parts - old(Parts)) && clients - {id} == old(clients) - {id}
      ensures Abs() == SocketStep(cfg, old(Abs()), id, step)
    {
      F.SocketRecorded(clients, registry, Parts, id);
      var seen := |clients[id].events|;
      Move(id, step);
      Notice(id, seen);
    }

    /** Another view of the sockets; nothing else of the server moves. */
    ghost method View(r: Registry, parts: set<object>)
      modifies this`registry, this`Parts
      ensures registry == r && Parts == parts && Abs() == old(Abs()).(registry := r)
    {
      registry, Parts := r, parts;
    }

    /** The socket is back among the others. */
    ghost method Record(id: Id, rest: set<object>)
      requires F.OneApart({this, metrics}, clients, registry, rest, id)
      requires var socket := clients[id]; socket.Valid() && socket.Repr !! rest && {this, metrics} !! socket.Repr
      modifies this`registry, this`Parts
      ensures Valid() && Parts == rest + clients[id].Repr
      ensures Abs() == SetSession(old(Abs()), id, clients[id].state)
    {
      ghost var socket := clients[id];
      F.PutBack({this, metrics}, clients, registry, rest, id);
      View(registry.(sessions := registry.sessions[id := Client(socket.opts, socket.state)]), rest + socket.Repr);
    }

    /** The step itself. */
    method Move(id: Id, step: S.Step)
      requires Valid() && id in clients
      modifies this`registry, this`Parts, Parts
      ensures Valid() && fresh(Parts - old(Parts))
      ensures Abs() == SetSession(old(Abs()), id, After(old(Abs()).registry.sessions[id], step))
    {
      var socket := clients[id];
      ghost var rest := Parts - socket.Repr;
      F.TakeOut({this, metrics}, clients, registry, Parts, id);
      socket.Perform(step);
      Record(id, rest);
    }

    // ----- handshakes -----

    method CountError()
      requires Valid()
      modifies metrics
      ensures Valid() && Abs() == old(Abs()).(metrics := M.OnError(old(Abs()).metrics))
    {
      metrics.CountError();
    }

    /** One unit of the budget of all, and one of the address. */
    method SpendBudget(ip: Option<string>)
      requires Valid()
      modifies this`handshakeTokens, this`ipHandshakeCounts, this`window
      ensures Valid() && Abs() == old(Abs()).(budget := Spend(cfg, old(Abs()).budget, ip))
    {
      if ip.Some? {
        var ipCount := CountOf(ipHandshakeCounts, ip.value);
        ipHandshakeCounts := ipHandshakeCounts[ip.value := ipCount + 1];
      }
      if cfg.maxHandshakesPerSecond > 0 {
        handshakeTokens := handshakeTokens - 1;
      }
      window := window + [ip];
    }

    method CheckBudget(ip: Option<string>) returns (verdict: Verdict)
      ensures verdict == Affords(cfg, Abs().budget, ip)
    {
      if cfg.maxHandshakesPerSecond > 0 && handshakeTokens <= 0 {
        return TooManyHandshakes;
      }
      if ip.Some? {
        var ipCount := CountOf(ipHandshakeCounts, ip.value);
        if ipCount >= cfg.maxHandshakesPerIp {
          return TooManyFromIp;
        }
      }
      return Passed;
    }

    /** The budgets and the capacity, before the hook. */
    method Check(address: Option<string>) returns (verdict: Verdict)
      requires Valid()
      modifies this`handshakeTokens, this`ipHandshakeCounts, this`window, metrics
      ensures Valid() && (Abs(), verdict) == Screen(cfg, old(Abs()), address)
    {
      var ip := KnownIp(cfg, address);
      verdict := CheckBudget(ip);
      if verdict != Passed {
        CountError();
        return;
      }
      SpendBudget(ip);
      assert |clients| == |clients.Keys|;
      if cfg.maxClients > 0 && |clients| >= cfg.maxClients {
        verdict := ServerFull;
      }
    }

    /** The one-second timer. */
    method Refill()
      requires Valid()
      modifies this`handshakeTokens, this`ipHandshakeCounts, this`window
      ensures Valid() && Abs() == RefillBudget(cfg, old(Abs()))
    {
      if cfg.maxHandshakesPerSecond > 0 || cfg.maxHandshakesPerIp > 0 {
        handshakeTokens, ipHandshakeCounts, window := cfg.maxHandshakesPerSecond, map[], [];
      }
    }

    /** A new socket on the transport of its request. */
    method MakeSocket(opts: Options, r: Request) returns (socket: K.Socket)
      ensures socket.Valid() && fresh(socket.Repr) && socket.opts == opts
      ensures socket.state == S.Start(opts, r.upgrade, r.room, r.text, r.now)
    {
      if r.upgrade {
        var transport := new W.WS(opts);
        transport.OnOpen(r.room);
        socket := K.Socket.Connect(opts, null, transport, r.room, r.text, r.now);
      } else {
        var transport := new P.Polling();
        socket := K.Socket.Connect(opts, transport, null, r.room, r.text, r.now);
      }
    }

    method AddClient(id: Id, webSocket: bool, socket: K.Socket)
      requires Valid() && id !in registry.sessions && id !in registry.clients
      requires socket.Valid() && socket.Repr !! Parts && {this, metrics} !! socket.Repr
      modifies this`clients, this`registry, this`Parts
      ensures Valid() && clients == old(clients)[id := socket] && Parts == old(Parts) + socket.Repr
      ensures registry == Grown(old(registry), id, Client(socket.opts, socket.state),
                                Admission(degraded, webSocket, socket.opts))
      ensures Abs() == old(Abs()).(registry := registry)
    {
      ghost var before := clients;
      clients := clients[id := socket];
      Enroll(before, id, socket, Admission(degraded, webSocket, socket.opts));
    }

    /** The state machine's view of the new client. */
    ghost method Enroll(before: map<Id, K.Socket>, id: Id, socket: K.Socket, a: Admission)
      requires F.Ready(before, registry, Parts) && clients == before[id := socket] && id !in registry.clients
      requires socket.Valid() && socket.Repr !! Parts && {this, metrics} !! (Parts + socket.Repr)
      modifies this`registry, this`Parts
      ensures Valid() && Parts == old(Parts) + socket.Repr
      ensures registry == Grown(old(registry), id, Client(socket.opts, socket.state), a)
      ensures Abs() == old(Abs()).(registry := registry)
    {
      ghost var grown := Grown(registry, id, Client(socket.opts, socket.state), a);
      F.JoinReady(before, registry, Parts, id, socket, grown);
      View(grown, Parts + socket.Repr);
    }

    method CountArrival(webSocket: bool)
      requires Valid()
      modifies metrics
      ensures Valid() && Abs() == old(Abs()).(metrics := M.OnConnection(old(Abs()).metrics, webSocket))
    {
      metrics.CountConnection(webSocket);
    }

    /** Into the map and the counters. */
    method Enlist(id: Id, webSocket: bool, socket: K.Socket)
      requires Valid() && id !in registry.sessions && id !in registry.clients
      requires socket.Valid() && socket.Repr !! Parts && {this, metrics} !! socket.Repr
      modifies this`clients, this`registry, this`Parts, metrics
      ensures Valid() && clients == old(clients)[id := socket] && Parts == old(Parts) + socket.Repr
      ensures var s, c := old(Abs()), Client(socket.opts, socket.state);
              Abs() == s.(registry := Grown(s.registry, id, c, Admission(s.health.degraded, webSocket, c.opts)),
                          metrics := M.OnConnection(s.metrics, webSocket))
    {
      AddClient(id, webSocket, socket);
      CountArrival(webSocket);
    }

    method Admit(id: Id, webSocket: bool, socket: K.Socket)
      requires Valid() && id !in registry.sessions && id !in registry.clients
      requires socket.Valid() && socket.Repr !! Parts && {this, metrics} !! socket.Repr
      modifies this`clients, this`registry, this`Parts, this`degraded, this`degradations, metrics
      ensures Valid() && clients == old(clients)[id := socket] && Parts == old(Parts) + socket.Repr
      ensures Abs() == Join(cfg, old(Abs()), id, webSocket, Client(socket.opts, socket.state))
    {
      Enlist(id, webSocket, socket);
      UpdateDegradationState();
    }

    // ----- a new socket's first steps -----

    method MoveListener(id: Id)
      requires Valid() && id in clients
      modifies this`registry, this`Parts, Parts
      ensures Valid() && Parts == old(Parts)
      ensures var c := old(Abs()).registry.sessions[id].session;
              Abs() == SetSession(old(Abs()), id, c.(meter := c.meter.(packetCreate := true)))
    {
      var socket := clients[id];
      ghost var rest := Parts - socket.Repr;
      F.TakeOut({this, metrics}, clients, registry, Parts, id);
      socket.EnablePacketCreate();
      Record(id, rest);
    }

    /** Metrics start to listen to a socket. */
    method ListenTo(id: Id)
      requires Valid() && id in clients
      modifies this`registry, this`Parts, Parts
      ensures Valid() && Parts == old(Parts)
      ensures Abs() == SocketStep(cfg, old(Abs()), id, S.EnablePacketCreate)
    {
      F.SocketRecorded(clients, registry, Parts, id);
      ListeningIsSilent(cfg, Abs(), id);
      MoveListener(id);
    }

    method MovePoll(id: Id)
      requires Valid() && id in clients
      modifies this`registry, this`Parts, Parts
      ensures Valid() && Parts == old(Parts)
      ensures var c := old(Abs()).registry.sessions[id];
              Abs() == SetSession(old(Abs()), id, S.PollArrives(c.opts, c.session))
    {
      var socket := clients[id];
      ghost var rest := Parts - socket.Repr;
      F.TakeOut({this, metrics}, clients, registry, Parts, id);
      socket.OnPollRequest();
      Record(id, rest);
    }

    /** The handshake request becomes the first poll. */
    method PollFirst(id: Id)
      requires Valid() && id in clients
      modifies this, metrics, Parts
      ensures Valid() && Parts == old(Parts) && Abs() == SocketStep(cfg, old(Abs()), id, S.PollIn)
    {
      PollStep(cfg, Abs(), id);
      F.SocketRecorded(clients, registry, Parts, id);
      var seen := |clients[id].events|;
      MovePoll(id);
      Notice(id, seen);
    }

    /** After the hook: the flag decides on pollers, Bun on upgrades; then the socket is made and registered. */
    method Register(r: Request) returns (verdict: Verdict)
      requires Valid() && r.id !in registry.sessions && r.id !in registry.clients
      modifies this, metrics, Parts
      ensures Valid() && fresh(Parts - old(Parts)) && (Abs(), verdict) == ServerState.Register(cfg, old(Abs()), r)
    {
      if degraded && !r.upgrade {
        return WebSocketOnly;
      }
      if r.upgrade && !r.upgradeSucceeds {
        return UpgradeFailed;
      }
      var opts := if degraded then cfg.options.(pingInterval := cfg.options.pingInterval * 2) else cfg.options;
      var socket := MakeSocket(opts, r);
      Install(r, socket);
      return Connected;
    }

    /** The new socket is registered and takes its first steps. */
    method Install(r: Request, socket: K.Socket)
      requires Valid() && r.id !in registry.sessions && r.id !in registry.clients
      requires socket.Valid() && socket.Repr !! Parts && {this, metrics} !! socket.Repr
      modifies this, metrics, Parts, socket.Repr
      ensures Valid() && Parts == old(Parts) + old(socket.Repr)
      ensures Abs() == Settle(cfg, old(Abs()), r, Client(socket.opts, old(socket.state)))
    {
      Admit(r.id, r.upgrade, socket);
      BeginSession(r.id, !r.upgrade);
    }

    method BeginSession(id: Id, poll: bool)
      requires Valid() && id in clients
      modifies this, metrics, Parts
      ensures Valid() && Parts == old(Parts) && Abs() == FirstSteps(cfg, old(Abs()), id, poll)
    {
      if metricsEnabled {
        ListenTo(id);
      }
      if poll {
        PollFirst(id);
      }
    }

    /** A handshake without a hook. */
    method Handshake(address: Option<string>, r: Request) returns (verdict: Verdict)
      requires Valid() && r.id !in registry.sessions && r.id !in registry.clients
      modifies this, metrics, Parts
      ensures Valid() && fresh(Parts - old(Parts))
      ensures (Abs(), verdict) == ServerState.Handshake(cfg, old(Abs()), address, r)
    {
      verdict := Check(address);
      if verdict == Passed {
        verdict := Register(r);
      }
    }

    // ----- broadcast -----

    /** A broadcast's frame for one client. */
    method MoveBroadcast(id: Id, encoded: RawData, data: RawData)
      requires Valid() && id in clients && encoded == Parser.EncodePacket(Packet(Message, Some(data)), true)
      modifies this`registry, this`Parts, Parts
      ensures Valid() && Parts == old(Parts)
      ensures var c := old(Abs()).registry.sessions[id];
              Abs() == SetSession(old(Abs()), id, S.Broadcast(c.opts, c.session, data))
    {
      var socket := clients[id];
      ghost var rest := Parts - socket.Repr;
      F.TakeOut({this, metrics}, clients, registry, Parts, id);
      socket.TakeBroadcast(encoded, data);
      Record(id, rest);
    }

    method DeliverBroadcast(id: Id, encoded: RawData, data: RawData)
      requires Valid() && id in clients && encoded == Parser.EncodePacket(Packet(Message, Some(data)), true)
      modifies this, metrics, Parts
      ensures Valid() && Parts == old(Parts) && clients - {id} == old(clients) - {id}
      ensures Abs() == SocketStep(cfg, old(Abs()), id, S.DoBroadcast(data))
    {
      BroadcastStep(cfg, Abs(), id, data);
      F.SocketRecorded(clients, registry, Parts, id);
      var seen := |clients[id].events|;
      MoveBroadcast(id, encoded, data);
      Notice(id, seen);
    }

    /** One more client of a walk through all of them. */
    method SendNext(id: Id, encoded: RawData, data: RawData, ghost before: State, ghost order: seq<Id>)
      requires Valid() && id in clients && encoded == Parser.EncodePacket(Packet(Message, Some(data)), true)
      requires Abs() == EachSocket(cfg, before, order, S.DoBroadcast(data))
      modifies this, metrics, Parts
      ensures Valid() && Parts == old(Parts) && clients - {id} == old(clients) - {id}
      ensures Abs() == EachSocket(cfg, before, order + [id], S.DoBroadcast(data))
    {
      EachSocketPush(cfg, before, order, id, S.DoBroadcast(data));
      DeliverBroadcast(id, encoded, data);
    }

    /** To each of these clients, the frame encoded once. */
    method SendToEach(ids: set<Id>, data: RawData) returns (ghost order: seq<Id>)
      requires Valid() && ids <= clients.Keys
      modifies this, metrics, Parts
      ensures Valid() && Parts == old(Parts) && Enumerates(order, ids)
      ensures Abs() == EachSocket(cfg, old(Abs()), order, S.DoBroadcast(data))
    {
      var encoded := Parser.EncodePacket(Packet(Message, Some(data)), true);
      ghost var before := Abs();
      var rest := ids;
      order := [];
      while rest != {}
        invariant Valid() && Parts == old(Parts) && rest <= clients.Keys
        invariant Walked(order, ids, rest)
        invariant Abs() == EachSocket(cfg, before, order, S.DoBroadcast(data))
        decreases rest
      {
        var id :| id in rest;
        WalkedPush(order, ids, rest, id);
        KeysKept(clients, rest, id);
        SendNext(id, encoded, data, before, order);
        order := order + [id];
        rest := rest - {id};
      }
    }

    method Broadcast(data: RawData) returns (ghost order: seq<Id>)
      requires Valid()
      modifies this, metrics, Parts
      ensures Valid() && Parts == old(Parts) && Enumerates(order, old(clients).Keys)
      ensures Abs() == EachSocket(cfg, old(Abs()), order, S.DoBroadcast(data))
    {
      order := SendToEach(clients.Keys, data);
    }

    method BroadcastExcept(excluded: Id, data: RawData) returns (ghost order: seq<Id>)
      requires Valid()
      modifies this, metrics, Parts
      ensures Valid() && Parts == old(Parts) && Enumerates(order, old(clients).Keys - {excluded})
      ensures Abs() == EachSocket(cfg, old(Abs()), order, S.DoBroadcast(data))
    {
      order := SendToEach(clients.Keys - {excluded}, data);
    }

    // ----- closing -----

    method ListenForClose(j: nat, id: Id)
      requires Valid() && j < |countdowns|
      modifies this`countdowns
      ensures Valid() && Abs() == old(Abs()).(countdowns := Listen(old(countdowns), j, id))
    {
      var c := countdowns[j];
      countdowns := countdowns[j := c.(listening := c.listening + {id})];
    }

    method MoveClose(id: Id)
      requires Valid() && id in clients
      modifies this`registry, this`Parts, Parts
      ensures Valid() && Parts == old(Parts)
      ensures Abs() == SetSession(old(Abs()), id, S.CloseSession(old(Abs()).registry.sessions[id].session))
    {
      var socket := clients[id];
      ghost var rest := Parts - socket.Repr;
      F.TakeOut({this, metrics}, clients, registry, Parts, id);
      socket.Close();
      Record(id, rest);
    }

    method CloseClient(id: Id)
      requires Valid() && id in clients
      modifies this, metrics, Parts
      ensures Valid() && Parts == old(Parts) && clients - {id} == old(clients) - {id}
      ensures Abs() == SocketStep(cfg, old(Abs()), id, S.DoClose)
    {
      CloseStep(cfg, Abs(), id);
      F.SocketRecorded(clients, registry, Parts, id);
      var seen := |clients[id].events|;
      MoveClose(id);
      Notice(id, seen);
    }

    /** Asks one client to close, and hears of it when it has. */
    method AskOne(j: nat, id: Id)
      requires Valid() && id in clients
      modifies this, metrics, Parts
      ensures Valid() && Parts == old(Parts) && clients - {id} == old(clients) - {id}
      ensures Abs() == AskToClose(cfg, old(Abs()), j, id)
    {
      if j < |countdowns| {
        ListenForClose(j, id);
        CloseClient(id);
      }
    }

    method AskNext(j: nat, id: Id, ghost before: State, ghost order: seq<Id>)
      requires Valid() && id in clients && Abs() == CloseEach(cfg, before, j, order)
      modifies this, metrics, Parts
      ensures Valid() && Parts == old(Parts) && clients - {id} == old(clients) - {id}
      ensures Abs() == CloseEach(cfg, before, j, order + [id])
    {
      CloseEachPush(cfg, before, j, order, id);
      AskOne(j, id);
    }

    method AskEach(j: nat, ids: set<Id>) returns (ghost order: seq<Id>)
      requires Valid() && ids <= clients.Keys
      modifies this, metrics, Parts
      ensures Valid() && Parts == old(Parts) && Enumerates(order, ids)
      ensures Abs() == CloseEach(cfg, old(Abs()), j, order)
    {
      ghost var before := Abs();
      var rest := ids;
      order := [];
      while rest != {}
        invariant Valid() && Parts == old(Parts) && rest <= clients.Keys
        invariant Walked(order, ids, rest)
        invariant Abs() == CloseEach(cfg, before, j, order)
        decreases rest
      {
        var id :| id in rest;
        WalkedPush(order, ids, rest, id);
        KeysKept(clients, rest, id);
        AskNext(j, id, before, order);
        order := order + [id];
        rest := rest - {id};
      }
    }

    /** One more countdown, over the clients there are. */
    method StartCountdown()
      requires Valid()
      modifies this`countdowns
      ensures Valid()
      ensures var ids := clients.Keys;
              var c := Countdown(ids, {}, |ids|, if |ids| == 0 then 1 else 0);
              Abs() == old(Abs()).(countdowns := old(countdowns) + [c])
    {
      assert |clients| == |clients.Keys|;
      countdowns := countdowns + [Countdown(clients.Keys, {}, |clients|, if |clients| == 0 then 1 else 0)];
    }

    /** Closes all clients; the countdown resolves when the last of them is closed. */
    method Close() returns (ghost order: seq<Id>)
      requires Valid()
      modifies this, metrics, Parts
      ensures Valid() && Parts == old(Parts) && Enumerates(order, old(clients).Keys)
      ensures Abs() == CloseAll(cfg, old(Abs()), order)
    {
      var ids, j := clients.Keys, |countdowns|;
      StartCountdown();
      order := AskEach(j, ids);
    }
  }
}
