/** The handshake budgets in every run, against the addresses that handshakes came from. */
module ServerBudgets {
  import opened Packets
  import opened ServerState
  import opened ServerInvariants
  import opened ServerSteps
  import opened ServerTheorems
  import S = Session

  // ----- who is charged -----

  /** There is a limit per address, and the address is known. */
  predicate Limited(cfg: Config, address: Option<string>) {
    cfg.maxHandshakesPerIp > 0 && address.Some? && address.value != ""
  }

  /** What a handshake leaves behind in the window. */
  function Charge(cfg: Config, address: Option<string>): Option<string> {
    if Limited(cfg, address) then address else None
  }

  /** So many handshakes in this window were charged already that the next one is refused. */
  function Refusal(cfg: Config, window: seq<Option<string>>, address: Option<string>): Option<Verdict> {
    if 0 < cfg.maxHandshakesPerSecond == |window| then Some(TooManyHandshakes)
    else if Limited(cfg, address) && Occurrences(window, address) == cfg.maxHandshakesPerIp then Some(TooManyFromIp)
    else None
  }

  function Charged(cfg: Config, window: seq<Option<string>>, address: Option<string>): seq<Option<string>> {
    if Refusal(cfg, window, address).Some? then window else window + [Charge(cfg, address)]
  }

  /** The window after a step: a handshake that starts is charged, the timer starts a new window. */
  function WindowAfter(cfg: Config, s: State, step: Step, window: seq<Option<string>>): seq<Option<string>> {
    match step
    case Shake(address, r) => if cfg.hook || r.id in s.registry.sessions then window else Charged(cfg, window, address)
    case ShakeBegins(address) => if cfg.hook then Charged(cfg, window, address) else window
    case BudgetTimer => if cfg.maxHandshakesPerSecond > 0 || cfg.maxHandshakesPerIp > 0 then [] else window
    case _ => window
  }

  ghost function WindowIn(cfg: Config, s: State, steps: seq<Step>, window: seq<Option<string>>): seq<Option<string>>
    decreases |steps|
  {
    if steps == [] then window
    else WindowIn(cfg, Apply(cfg, s, steps[0]), steps[1..], WindowAfter(cfg, s, steps[0], window))
  }

  // ----- sockets have no part in it -----

  lemma {:induction false} EventsKeepBudget(cfg: Config, s: State, id: Id, es: seq<S.Event>)
    ensures OnEvents(cfg, s, id, es).budget == s.budget
  {
    if es != [] {
      EventsKeepBudget(cfg, s, id, es[..|es| - 1]);
      OnSocketClosedParts(cfg, OnEvents(cfg, s, id, es[..|es| - 1]), id);
    }
  }

  lemma SocketKeepsBudget(cfg: Config, s: State, id: Id, step: S.Step)
    ensures SocketStep(cfg, s, id, step).budget == s.budget
  {
    if id in s.registry.sessions {
      var t := After(s.registry.sessions[id], step);
      EventsKeepBudget(cfg, SetSession(s, id, t), id, NewEvents(s.registry.sessions[id].session, t));
    }
  }

  lemma {:induction false} EachKeepsBudget(cfg: Config, s: State, order: seq<Id>, step: S.Step)
    ensures EachSocket(cfg, s, order, step).budget == s.budget
    decreases |order|
  {
    if order != [] {
      SocketKeepsBudget(cfg, s, order[0], step);
      EachKeepsBudget(cfg, SocketStep(cfg, s, order[0], step), order[1..], step);
    }
  }

  lemma {:induction false} CloseEachKeepsBudget(cfg: Config, s: State, j: nat, order: seq<Id>)
    ensures CloseEach(cfg, s, j, order).budget == s.budget
    decreases |order|
  {
    if order != [] {
      AskKeepsBudget(cfg, s, j, order[0]);
      CloseEachKeepsBudget(cfg, AskToClose(cfg, s, j, order[0]), j, order[1..]);
    }
  }

  lemma AskKeepsBudget(cfg: Config, s: State, j: nat, id: Id)
    ensures AskToClose(cfg, s, j, id).budget == s.budget
  {
    if j < |s.countdowns| {
      SocketKeepsBudget(cfg, s.(countdowns := Listen(s.countdowns, j, id)), id, S.DoClose);
    }
  }

  lemma CloseAllKeepsBudget(cfg: Config, s: State, order: seq<Id>)
    ensures CloseAll(cfg, s, order).budget == s.budget
  {
    var ids := s.registry.clients;
    var c := Countdown(ids, {}, |ids|, if |ids| == 0 then 1 else 0);
    CloseEachKeepsBudget(cfg, s.(countdowns := s.countdowns + [c]), |s.countdowns|, order);
  }

  lemma FirstStepsKeepBudget(cfg: Config, s: State, id: Id, poll: bool)
    ensures FirstSteps(cfg, s, id, poll).budget == s.budget
  {
    var s1 := if s.metricsEnabled then SocketStep(cfg, s, id, S.EnablePacketCreate) else s;
    SocketKeepsBudget(cfg, s, id, S.EnablePacketCreate);
    SocketKeepsBudget(cfg, s1, id, S.PollIn);
  }

  lemma RegisterKeepsBudget(cfg: Config, s: State, r: Request)
    ensures Register(cfg, s, r).0.budget == s.budget
  {
    var c := NewClient(cfg, s, r);
    JoinAdds(cfg, s, r.id, r.upgrade, c);
    FirstStepsKeepBudget(cfg, Join(cfg, s, r.id, r.upgrade, c), r.id, !r.upgrade);
  }

  // ----- handshakes -----

  lemma CountIsWindow(cfg: Config, b: Budget, ip: string)
    requires Budgeted(cfg, b)
    ensures CountOf(b.ipCounts, ip) == Occurrences(b.window, Some(ip)) <= cfg.maxHandshakesPerIp
  {}

  /** What becomes of the first half of a handshake. */
  ghost predicate Screened(cfg: Config, s: State, address: Option<string>, s': State, verdict: Verdict) {
    var window := s.budget.window;
    && verdict == (match Refusal(cfg, window, address)
                   case Some(refusal) => refusal
                   case None => if 0 < cfg.maxClients <= |s.registry.clients| then ServerFull else Passed)
    && s'.budget.window == Charged(cfg, window, address)
    && s'.metrics == s.metrics.(errors := s'.metrics.errors)
    && s'.metrics.errors == s.metrics.errors + (if Refusal(cfg, window, address).Some? then 1 else 0)
    && s' == s.(budget := s'.budget, metrics := s'.metrics)
  }

  lemma ScreenScreens(cfg: Config, s: State, address: Option<string>)
    requires Budgeted(cfg, s.budget)
    ensures var (s', verdict) := Screen(cfg, s, address); Screened(cfg, s, address, s', verdict)
  {
    if Limited(cfg, address) {
      CountIsWindow(cfg, s.budget, address.value);
    }
  }

  lemma ShakeWindow(cfg: Config, s: State, address: Option<string>, r: Request)
    requires Budgeted(cfg, s.budget)
    ensures Handshake(cfg, s, address, r).0.budget.window == Charged(cfg, s.budget.window, address)
  {
    ScreenScreens(cfg, s, address);
    RegisterKeepsBudget(cfg, Screen(cfg, s, address).0, r);
  }

  lemma StepWindow(cfg: Config, s: State, step: Step)
    requires Budgeted(cfg, s.budget)
    ensures Apply(cfg, s, step).budget.window == WindowAfter(cfg, s, step, s.budget.window)
  {
    match step
    case Shake(address, r) => ShakeWindow(cfg, s, address, r);
    case ShakeBegins(address) => ScreenScreens(cfg, s, address);
    case ShakeEnds(r) =>
      if s.pending > 0 {
        RegisterKeepsBudget(cfg, s.(pending := s.pending - 1), r);
      }
    case BudgetTimer =>
    case OnSocket(id, step) => SocketKeepsBudget(cfg, s, id, step);
    case BroadcastAll(order, data) => EachKeepsBudget(cfg, s, order, S.DoBroadcast(data));
    case BroadcastBut(order, excluded, data) =>
      EachKeepsBudget(cfg, s, Without(order, excluded), S.DoBroadcast(data));
    case CloseServer(order) => CloseAllKeepsBudget(cfg, s, order);
    case ReadMetrics(order) => EachKeepsBudget(cfg, s.(metricsEnabled := true), order, S.EnablePacketCreate);
  }

  lemma {:induction false} RunWindow(cfg: Config, s: State, steps: seq<Step>)
    requires Kept(cfg, s)
    ensures Run(cfg, s, steps).budget.window == WindowIn(cfg, s, steps, s.budget.window)
    decreases |steps|
  {
    if steps != [] {
      ApplyKeeps(cfg, s, steps[0]);
      StepWindow(cfg, s, steps[0]);
      RunWindow(cfg, Apply(cfg, s, steps[0]), steps[1..]);
    }
  }

  /** The handshakes charged in the window that a run ends in. */
  ghost function Window(cfg: Config, metricsEnabled: bool, steps: seq<Step>): seq<Option<string>> {
    WindowIn(cfg, Initial(cfg, metricsEnabled), steps, [])
  }

  lemma HistoryWindow(cfg: Config, metricsEnabled: bool, steps: seq<Step>)
    requires 0.0 <= cfg.degradationThreshold
    ensures History(cfg, metricsEnabled, steps).budget.window == Window(cfg, metricsEnabled, steps)
  {
    InitialKept(cfg, metricsEnabled);
    RunWindow(cfg, Initial(cfg, metricsEnabled), steps);
  }

  // ----- the theorems -----

  /**
   * In every run the count of an address is that of its handshakes in the window, never
   * more than its share; the tokens are what all handshakes in the window left, never less
   * than none; and the counts and the handshakes from nowhere make up the window.
   */
  lemma BudgetConserved(cfg: Config, metricsEnabled: bool, steps: seq<Step>)
    requires 0.0 <= cfg.degradationThreshold
    ensures var b := History(cfg, metricsEnabled, steps).budget;
            var window := Window(cfg, metricsEnabled, steps);
            && (cfg.maxHandshakesPerSecond > 0 ==> b.tokens == cfg.maxHandshakesPerSecond - |window| && b.tokens >= 0)
            && |window| == Total(b.ipCounts) + Occurrences(window, None)
            && (forall ip :: CountOf(b.ipCounts, ip) == Occurrences(window, Some(ip)))
            && (forall ip :: CountOf(b.ipCounts, ip) <= cfg.maxHandshakesPerIp)
  {
    HistoryKept(cfg, metricsEnabled, steps);
    HistoryWindow(cfg, metricsEnabled, steps);
  }

  /**
   * In every run a handshake is refused for its budget, and counted as an error, exactly
   * when all handshakes of the window, or else those of its address, have used it up; then
   * when the server is full; otherwise it gets through.
   */
  lemma BudgetDecides(cfg: Config, metricsEnabled: bool, steps: seq<Step>, address: Option<string>)
    requires 0.0 <= cfg.degradationThreshold
    ensures var s := History(cfg, metricsEnabled, steps);
            var (s', verdict) := Screen(cfg, s, address);
            && s.budget.window == Window(cfg, metricsEnabled, steps) && Screened(cfg, s, address, s', verdict)
  {
    HistoryKept(cfg, metricsEnabled, steps);
    HistoryWindow(cfg, metricsEnabled, steps);
    ScreenScreens(cfg, History(cfg, metricsEnabled, steps), address);
  }

  /** After the one-second timer no handshake is refused for its budget. */
  lemma TimerRestoresBudget(cfg: Config, metricsEnabled: bool, steps: seq<Step>, address: Option<string>)
    requires 0.0 <= cfg.degradationThreshold
    ensures var s := Apply(cfg, History(cfg, metricsEnabled, steps), BudgetTimer);
            Screen(cfg, s, address).1 == (if 0 < cfg.maxClients <= |s.registry.clients| then ServerFull else Passed)
  {
    HistoryKept(cfg, metricsEnabled, steps);
  }

  /** Only a handshake that gets through waits for the hook. */
  lemma OnlyPassedWait(cfg: Config, metricsEnabled: bool, steps: seq<Step>, address: Option<string>)
    requires 0.0 <= cfg.degradationThreshold && cfg.hook
    ensures var s := History(cfg, metricsEnabled, steps);
            var s' := Apply(cfg, s, ShakeBegins(address));
            var passes := Refusal(cfg, Window(cfg, metricsEnabled, steps), address).None?
                          && !(0 < cfg.maxClients <= |s.registry.clients|);
            s'.registry == s.registry && s'.pending == s.pending + (if passes then 1 else 0)
  {
    BudgetDecides(cfg, metricsEnabled, steps, address);
  }
}
