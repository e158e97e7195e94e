/**
 * The server as a state machine over its sessions: handshakes, the events of sockets,
 * broadcasts and closing.
 */
module ServerState {
  import opened Packets
  import opened Transport
  import S = Session
  import M = Metrics

  type Id = nat

  /** The options the server itself reads. `hook` says that editHandshakeHeaders is set. */
  datatype Config = Config(
    options: Options,
    maxClients: nat,
    degradationThreshold: real,
    maxHandshakesPerSecond: nat,
    maxHandshakesPerIp: nat,
    hook: bool)

  datatype Client = Client(opts: Options, session: S.State)

  /** What was decided about a handshake. */
  datatype Verdict =
    | Passed
    | TooManyHandshakes
    | TooManyFromIp
    | ServerFull
    | WebSocketOnly
    | UpgradeFailed
    | Connected

  /**
   * A handshake request. Its id is taken to be new, and whether Bun could upgrade it,
   * the text of the open packet and the time come from outside.
   */
  datatype Request = Request(id: Id, upgrade: bool, upgradeSucceeds: bool, room: nat, text: string, now: int)

  /** Every socket made so far, and the ids in the `clients` map. `admissions` is history. */
  datatype Registry = Registry(sessions: map<Id, Client>, clients: set<Id>, admissions: seq<Admission>)

  datatype Admission = Admission(degraded: bool, webSocket: bool, opts: Options)

  /** The cached flag and the "degradation" events so far. */
  datatype Health = Health(degraded: bool, degradations: seq<bool>)

  /** The handshake budgets. `window` is history: the handshakes that spent them since the last refill. */
  datatype Budget = Budget(tokens: int, ipCounts: map<string, nat>, window: seq<Option<string>>)

  /** One call of close(): the sockets it still listens to, how many it waits for, how often it resolved. */
  datatype Countdown = Countdown(initial: set<Id>, listening: set<Id>, remaining: int, resolved: nat)

  /** `pending` counts the handshakes that wait for the hook. */
  datatype State = State(
    registry: Registry,
    metrics: M.State,
    metricsEnabled: bool,
    health: Health,
    budget: Budget,
    pending: nat,
    countdowns: seq<Countdown>)

  function Initial(cfg: Config, metricsEnabled: bool): State {
    State(Registry(map[], {}, []), M.Initial, metricsEnabled, Health(false, []),
          Budget(cfg.maxHandshakesPerSecond, map[], []), 0, [])
  }

  // ----- degradation -----

  predicate Watching(cfg: Config) {
    cfg.degradationThreshold > 0.0 && cfg.maxClients > 0
  }

  predicate Loaded(cfg: Config, count: nat) {
    Watching(cfg) && count as real / cfg.maxClients as real >= cfg.degradationThreshold
  }

  function UpdateDegradation(cfg: Config, s: State): State {
    var degraded := Loaded(cfg, |s.registry.clients|);
    if !Watching(cfg) || degraded == s.health.degraded then s
    else s.(health := Health(degraded, s.health.degradations + [degraded]))
  }

  // ----- what sockets report -----

  function Tick(c: Countdown, id: Id): Countdown {
    if id !in c.listening then c
    else
      var left := c.remaining - 1;
      c.(listening := c.listening - {id}, remaining := left, resolved := c.resolved + (if left == 0 then 1 else 0))
  }

  function TickAll(cs: seq<Countdown>, id: Id): seq<Countdown> {
    if cs == [] then [] else TickAll(cs[..|cs| - 1], id) + [Tick(cs[|cs| - 1], id)]
  }

  predicate OnWebSocket(r: Registry, id: Id) {
    id in r.sessions && r.sessions[id].session.ws.Some?
  }

  /** Out of the map and the counters. */
  function Departed(s: State, id: Id): State {
    s.(registry := s.registry.(clients := s.registry.clients - {id}),
       metrics := M.OnDisconnection(s.metrics, OnWebSocket(s.registry, id)))
  }

  /** The "close" listener of the handshake, then those of close(). */
  function OnSocketClosed(cfg: Config, s: State, id: Id): State {
    UpdateDegradation(cfg, Departed(s, id)).(countdowns := TickAll(s.countdowns, id))
  }

  function OnEvent(cfg: Config, s: State, id: Id, e: S.Event): State {
    match e
    case UpgradeDone => s.(metrics := M.OnUpgrade(s.metrics))
    case Closed(_) => OnSocketClosed(cfg, s, id)
    case _ => s
  }

  function OnEvents(cfg: Config, s: State, id: Id, es: seq<S.Event>): State {
    if es == [] then s else OnEvent(cfg, OnEvents(cfg, s, id, es[..|es| - 1]), id, es[|es| - 1])
  }

  /** The events behind the first `seen`. */
  function Since(es: seq<S.Event>, seen: nat): seq<S.Event> {
    if seen <= |es| then es[seen..] else []
  }

  function NewEvents(before: S.State, after: S.State): seq<S.Event> {
    Since(after.log.events, |before.log.events|)
  }

  function SetSession(s: State, id: Id, t: S.State): State
    requires id in s.registry.sessions
  {
    var c := s.registry.sessions[id].(session := t);
    s.(registry := s.registry.(sessions := s.registry.sessions[id := c]))
  }

  /** A socket's session moves on, and the server's listeners hear of it. */
  function SocketMoves(cfg: Config, s: State, id: Id, t: S.State): State
    requires id in s.registry.sessions
  {
    OnEvents(cfg, SetSession(s, id, t), id, NewEvents(s.registry.sessions[id].session, t))
  }

  function After(c: Client, step: S.Step): S.State {
    S.Apply(c.opts, c.session, step)
  }

  function SocketStep(cfg: Config, s: State, id: Id, step: S.Step): State {
    if id !in s.registry.sessions then s else SocketMoves(cfg, s, id, After(s.registry.sessions[id], step))
  }

  // ----- handshakes -----

  function CountOf(counts: map<string, nat>, ip: string): nat {
    if ip in counts then counts[ip] else 0
  }

  /** The address counts only while there is a limit per address. */
  function KnownIp(cfg: Config, address: Option<string>): Option<string> {
    if cfg.maxHandshakesPerIp > 0 && address.Some? && address.value != "" then address else None
  }

  function Spend(cfg: Config, b: Budget, ip: Option<string>): Budget {
    b.(tokens := if cfg.maxHandshakesPerSecond > 0 then b.tokens - 1 else b.tokens,
       ipCounts := if ip.Some? then b.ipCounts[ip.value := CountOf(b.ipCounts, ip.value) + 1] else b.ipCounts,
       window := b.window + [ip])
  }

  /** Whether the budgets allow one more handshake. */
  function Affords(cfg: Config, b: Budget, ip: Option<string>): Verdict {
    if cfg.maxHandshakesPerSecond > 0 && b.tokens <= 0 then TooManyHandshakes
    else if ip.Some? && CountOf(b.ipCounts, ip.value) >= cfg.maxHandshakesPerIp then TooManyFromIp
    else Passed
  }

  predicate Full(cfg: Config, s: State) {
    cfg.maxClients > 0 && |s.registry.clients| >= cfg.maxClients
  }

  /** The first half of a handshake: budgets, then capacity. */
  function Screen(cfg: Config, s: State, address: Option<string>): (State, Verdict) {
    var ip := KnownIp(cfg, address);
    var verdict := Affords(cfg, s.budget, ip);
    if verdict != Passed then (s.(metrics := M.OnError(s.metrics)), verdict)
    else (s.(budget := Spend(cfg, s.budget, ip)), if Full(cfg, s) then ServerFull else Passed)
  }

  function SocketOptions(cfg: Config, degraded: bool): Options {
    if degraded then cfg.options.(pingInterval := cfg.options.pingInterval * 2) else cfg.options
  }

  function NewClient(cfg: Config, s: State, r: Request): Client {
    var opts := SocketOptions(cfg, s.health.degraded);
    Client(opts, S.Start(opts, r.upgrade, r.room, r.text, r.now))
  }

  /** The client goes into the map and the counters. */
  function Join(cfg: Config, s: State, id: Id, webSocket: bool, c: Client): State {
    UpdateDegradation(cfg, s.(
      registry := Registry(s.registry.sessions[id := c], s.registry.clients + {id},
                           s.registry.admissions + [Admission(s.health.degraded, webSocket, c.opts)]),
      metrics := M.OnConnection(s.metrics, webSocket)))
  }

  /** A new socket's first steps: metrics may listen to it, and on polling the request becomes its first poll. */
  function FirstSteps(cfg: Config, s: State, id: Id, poll: bool): State {
    var s1 := if s.metricsEnabled then SocketStep(cfg, s, id, S.EnablePacketCreate) else s;
    if poll then SocketStep(cfg, s1, id, S.PollIn) else s1
  }

  function Settle(cfg: Config, s: State, r: Request, c: Client): State {
    FirstSteps(cfg, Join(cfg, s, r.id, r.upgrade, c), r.id, !r.upgrade)
  }

  /** The second half: the flag decides on pollers, Bun on upgrades. */
  function Register(cfg: Config, s: State, r: Request): (State, Verdict) {
    if s.health.degraded && !r.upgrade then (s, WebSocketOnly)
    else if r.upgrade && !r.upgradeSucceeds then (s, UpgradeFailed)
    else (Settle(cfg, s, r, NewClient(cfg, s, r)), Connected)
  }

  /** A handshake without a hook happens in one go. */
  function Handshake(cfg: Config, s: State, address: Option<string>, r: Request): (State, Verdict) {
    var (s1, verdict) := Screen(cfg, s, address);
    if verdict == Passed then Register(cfg, s1, r) else (s1, verdict)
  }

  /** The one-second timer, which runs only with a limit. */
  function RefillBudget(cfg: Config, s: State): State {
    if cfg.maxHandshakesPerSecond > 0 || cfg.maxHandshakesPerIp > 0
    then s.(budget := Budget(cfg.maxHandshakesPerSecond, map[], []))
    else s
  }

  // ----- all sockets -----

  /** The ids in some order, each once. */
  ghost predicate Enumerates(order: seq<Id>, ids: set<Id>) {
    && (forall id :: id in order <==> id in ids)
    && (forall i, j | 0 <= i < j < |order| :: order[i] != order[j])
  }

  /** The same step for each of the sockets, in order. */
  function EachSocket(cfg: Config, s: State, order: seq<Id>, step: S.Step): State
    decreases |order|
  {
    if order == [] then s else EachSocket(cfg, SocketStep(cfg, s, order[0], step), order[1..], step)
  }

  /** The clients are walked in `order`; those in `some` take the step. */
  ghost function Walk(cfg: Config, s: State, order: seq<Id>, some: seq<Id>, step: S.Step): State {
    if Enumerates(order, s.registry.clients) then EachSocket(cfg, s, some, step) else s
  }

  lemma {:induction false} EachSocketPush(cfg: Config, s: State, order: seq<Id>, id: Id, step: S.Step)
    ensures EachSocket(cfg, s, order + [id], step) == SocketStep(cfg, EachSocket(cfg, s, order, step), id, step)
    decreases |order|
  {
    if order == [] {
      assert [id][1..] == [];
    } else {
      assert (order + [id])[1..] == order[1..] + [id];
      EachSocketPush(cfg, SocketStep(cfg, s, order[0], step), order[1..], id, step);
    }
  }

  function Without(order: seq<Id>, id: Id): seq<Id> {
    if order == [] then [] else (if order[0] == id then [] else [order[0]]) + Without(order[1..], id)
  }

  /** The countdown gets one more socket to listen to. */
  function Listen(cs: seq<Countdown>, j: nat, id: Id): seq<Countdown>
    requires j < |cs|
  {
    cs[j := cs[j].(listening := cs[j].listening + {id})]
  }

  /** The countdown listens to a socket, and the socket is asked to close. */
  function AskToClose(cfg: Config, s: State, j: nat, id: Id): State {
    if j < |s.countdowns| then SocketStep(cfg, s.(countdowns := Listen(s.countdowns, j, id)), id, S.DoClose) else s
  }

  function CloseEach(cfg: Config, s: State, j: nat, order: seq<Id>): State
    decreases |order|
  {
    if order == [] then s else CloseEach(cfg, AskToClose(cfg, s, j, order[0]), j, order[1..])
  }

  lemma {:induction false} CloseEachPush(cfg: Config, s: State, j: nat, order: seq<Id>, id: Id)
    ensures CloseEach(cfg, s, j, order + [id]) == AskToClose(cfg, CloseEach(cfg, s, j, order), j, id)
    decreases |order|
  {
    if order == [] {
      assert [id][1..] == [];
    } else {
      assert (order + [id])[1..] == order[1..] + [id];
      CloseEachPush(cfg, AskToClose(cfg, s, j, order[0]), j, order[1..], id);
    }
  }

  function CloseAll(cfg: Config, s: State, order: seq<Id>): State {
    var ids := s.registry.clients;
    var c := Countdown(ids, {}, |ids|, if |ids| == 0 then 1 else 0);
    CloseEach(cfg, s.(countdowns := s.countdowns + [c]), |s.countdowns|, order)
  }

  // ----- the machine -----

  datatype Step =
    | Shake(address: Option<string>, request: Request)
    | ShakeBegins(address: Option<string>)
    | ShakeEnds(request: Request)
    | BudgetTimer
    | OnSocket(id: Id, step: S.Step)
    | BroadcastAll(order: seq<Id>, data: RawData)
    | BroadcastBut(order: seq<Id>, excluded: Id, data: RawData)
    | CloseServer(order: seq<Id>)
    | ReadMetrics(order: seq<Id>)

  /** `order` is the order in which the clients map is walked. Ids are not used twice. */
  ghost function Apply(cfg: Config, s: State, step: Step): State {
    match step
    case Shake(address, r) =>
      if cfg.hook || r.id in s.registry.sessions then s else Handshake(cfg, s, address, r).0
    case ShakeBegins(address) =>
      if !cfg.hook then s
      else
        var (s1, verdict) := Screen(cfg, s, address);
        if verdict == Passed then s1.(pending := s1.pending + 1) else s1
    case ShakeEnds(r) =>
      if s.pending == 0 || r.id in s.registry.sessions then s else Register(cfg, s.(pending := s.pending - 1), r).0
    case BudgetTimer => RefillBudget(cfg, s)
    case OnSocket(id, step) => SocketStep(cfg, s, id, step)
    case BroadcastAll(order, data) => Walk(cfg, s, order, order, S.DoBroadcast(data))
    case BroadcastBut(order, excluded, data) => Walk(cfg, s, order, Without(order, excluded), S.DoBroadcast(data))
    case CloseServer(order) => if Enumerates(order, s.registry.clients) then CloseAll(cfg, s, order) else s
    case ReadMetrics(order) =>
      if s.metricsEnabled then s
      else Walk(cfg, s.(metricsEnabled := true), order, order, S.EnablePacketCreate)
  }

  ghost function Run(cfg: Config, s: State, steps: seq<Step>): State
    decreases |steps|
  {
    if steps == [] then s else Run(cfg, Apply(cfg, s, steps[0]), steps[1..])
  }
}
