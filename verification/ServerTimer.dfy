/**
 * The registry of rate limiters, over the runs of a server: the constructor of a socket
 * registers its limiter, and closing the socket destroys it.
 */
module ServerTimer {
  import opened Transport
  import opened ServerState
  import opened ServerInvariants
  import opened ServerSteps
  import opened ServerTheorems
  import opened ServerLives
  import L = RateLimiting
  import S = Session
  import SI = SessionInvariants
  import SR = SessionRate
  import SS = SessionSteps

  predicate HasLimiter(r: Registry, id: Id) {
    id in r.sessions && r.sessions[id].session.meter.limiter.Some?
  }

  /** How often the socket has gone through its closing, which destroys its limiter. */
  function ClosedTimes(r: Registry, id: Id): nat {
    if id in r.sessions then SI.Closings(r.sessions[id].session.log.events) else 0
  }

  /** The limiters made between two states of a server, and those destroyed. */
  function Made(r: Registry, r': Registry): set<Id> {
    set id | id in r'.sessions && HasLimiter(r', id) && id !in r.sessions
  }

  function Gone(r: Registry, r': Registry): set<Id> {
    set id | id in r'.sessions && HasLimiter(r', id) && ClosedTimes(r', id) > ClosedTimes(r, id)
  }

  function TimerStep(t: L.Timer<Id>, r: Registry, r': Registry): L.Timer<Id> {
    L.Destroyed(L.Registered(t, Made(r, r')), Gone(r, r'))
  }

  ghost function TimerRun(cfg: Config, s: State, t: L.Timer<Id>, steps: seq<Step>): L.Timer<Id>
    decreases |steps|
  {
    if steps == [] then t
    else
      var s' := Apply(cfg, s, steps[0]);
      TimerRun(cfg, s', TimerStep(t, s.registry, s'.registry), steps[1..])
  }

  /** The limiters of sockets that have not closed. */
  function Unclosed(r: Registry): set<Id> {
    set id | id in r.sessions && HasLimiter(r, id) && ClosedTimes(r, id) == 0
  }

  ghost predicate Serves(t: L.Timer<Id>, r: Registry) {
    t.active == Unclosed(r) && (t.running <==> t.active != {})
  }

  lemma {:induction false} ClosingsGrow(es: seq<S.Event>, fs: seq<S.Event>)
    requires es <= fs
    ensures SI.Closings(es) <= SI.Closings(fs)
  {
    if es != fs {
      ClosingsGrow(es, fs[..|fs| - 1]);
    }
  }

  /** A socket keeps its limiter, and its closings only add up. */
  lemma OlderKeepsLimiter(c: Client, c': Client)
    requires SI.Inv(c.session) && Older(c, c')
    ensures c'.session.meter.limiter.Some? <==> c.session.meter.limiter.Some?
    ensures SI.Closings(c.session.log.events) <= SI.Closings(c'.session.log.events)
  {
    var more: seq<S.Step> :| c'.session == S.Run(c.opts, c.session, more);
    SR.RunKeepsLimiter(c.opts, c.session, more);
    SS.RunKeeps(c.opts, c.session, more);
    ClosingsGrow(c.session.log.events, c'.session.log.events);
  }

  /** Every socket is still there, with its limiter, and has closed no less often. */
  ghost predicate Goes(r: Registry, r': Registry) {
    forall id | id in r.sessions ::
      && id in r'.sessions && (HasLimiter(r', id) <==> HasLimiter(r, id))
      && ClosedTimes(r, id) <= ClosedTimes(r', id)
  }

  lemma SocketsGo(s: State, s': State)
    requires Sound(s.registry) && Later(s, s')
    ensures Goes(s.registry, s'.registry)
  {
    var r, r' := s.registry, s'.registry;
    forall id | id in r.sessions
      ensures id in r'.sessions && (HasLimiter(r', id) <==> HasLimiter(r, id))
      ensures ClosedTimes(r, id) <= ClosedTimes(r', id)
    {
      assert Older(r.sessions[id], r'.sessions[id]);
      OlderKeepsLimiter(r.sessions[id], r'.sessions[id]);
    }
  }

  lemma UnclosedAfter(r: Registry, r': Registry)
    requires Goes(r, r')
    ensures Unclosed(r') == Unclosed(r) + Made(r, r') - Gone(r, r')
  {}

  lemma TimerAfter(t: L.Timer<Id>, made: set<Id>, gone: set<Id>)
    requires t.running <==> t.active != {}
    ensures var t' := L.Destroyed(L.Registered(t, made), gone);
            t'.active == t.active + made - gone && (t'.running <==> t'.active != {})
  {
    if made == {} {
      assert t.active + made == t.active;
    }
  }

  lemma StepServes(s: State, s': State, t: L.Timer<Id>)
    requires Sound(s.registry) && Later(s, s') && Serves(t, s.registry)
    ensures Serves(TimerStep(t, s.registry, s'.registry), s'.registry)
  {
    SocketsGo(s, s');
    UnclosedAfter(s.registry, s'.registry);
    TimerAfter(t, Made(s.registry, s'.registry), Gone(s.registry, s'.registry));
  }

  lemma {:induction false} RunServes(cfg: Config, s: State, t: L.Timer<Id>, steps: seq<Step>)
    requires Sound(s.registry) && Serves(t, s.registry)
    ensures Serves(TimerRun(cfg, s, t, steps), Run(cfg, s, steps).registry)
    decreases |steps|
  {
    if steps != [] {
      var s' := Apply(cfg, s, steps[0]);
      StepLater(cfg, s, steps[0]);
      StepServes(s, s', t);
      RunServes(cfg, s', TimerStep(t, s.registry, s'.registry), steps[1..]);
    }
  }

  lemma ClosedOnce(r: Registry, id: Id)
    requires Sound(r) && id in r.sessions
    ensures ClosedTimes(r, id) == 0 <==> r.sessions[id].session.readyState != CLOSED
  {
    assert SI.Reported(r.sessions[id].session);
  }

  /**
   * In every run the registered limiters are those of the sockets that are not CLOSED, all
   * of them clients, and the timer runs exactly while there is one.
   */
  lemma TimerServesOpenSockets(cfg: Config, metricsEnabled: bool, steps: seq<Step>)
    requires 0.0 <= cfg.degradationThreshold
    ensures var s := History(cfg, metricsEnabled, steps);
            var t := TimerRun(cfg, Initial(cfg, metricsEnabled), L.Timer({}, false), steps);
            && (forall id :: id in t.active <==> HasLimiter(s.registry, id) && Live(s.registry, id))
            && t.active <= s.registry.clients
            && (t.running <==> t.active != {})
  {
    var s := History(cfg, metricsEnabled, steps);
    var t := TimerRun(cfg, Initial(cfg, metricsEnabled), L.Timer({}, false), steps);
    InitialKept(cfg, metricsEnabled);
    RunServes(cfg, Initial(cfg, metricsEnabled), L.Timer({}, false), steps);
    HistoryKept(cfg, metricsEnabled, steps);
    forall id
      ensures id in t.active <==> HasLimiter(s.registry, id) && Live(s.registry, id)
    {
      if id in s.registry.sessions {
        ClosedOnce(s.registry, id);
      }
    }
  }
}
