/** A reset gives a session its whole message budget back. */
module SessionBudget {
  import opened Packets
  import opened Transport
  import opened Session
  import opened SessionInvariants
  import opened SessionSteps
  import opened SessionTheorems
  import opened SessionInput
  import opened SessionRate

  /** When the next reset is due after a step: a window after a tick that came when one was due. */
  function DueThen(r: RateLimitOptions, s: State, step: Step, due: int): int {
    if step.LimiterTimer? && s.readyState != CLOSED && s.heart.now >= due then s.heart.now + r.windowMs else due
  }

  function DueAfter(opts: Options, r: RateLimitOptions, s: State, steps: seq<Step>, due: int): int
    decreases |steps|
  {
    if steps == [] then due
    else DueAfter(opts, r, Apply(opts, s, steps[0]), steps[1..], DueThen(r, s, steps[0], due))
  }

  /** The limiter resets at `due`. */
  ghost predicate Awaits(r: RateLimitOptions, s: State, due: int) {
    Inv(s) && InRange(r, s) && s.meter.limiter.value.nextReset == due
  }

  lemma StepDue(opts: Options, r: RateLimitOptions, s: State, step: Step, due: int)
    requires Awaits(r, s, due)
    ensures Awaits(r, Apply(opts, s, step), DueThen(r, s, step, due))
  {
    StepKeeps(opts, s, step);
    if step.LimiterTimer? {
      TickResets(opts, s);
    } else {
      StepSpends(opts, s, step);
    }
  }

  lemma {:induction false} RunDue(opts: Options, r: RateLimitOptions, s: State, steps: seq<Step>, due: int)
    requires Awaits(r, s, due)
    ensures Awaits(r, Run(opts, s, steps), DueAfter(opts, r, s, steps, due))
    decreases |steps|
  {
    if steps != [] {
      StepDue(opts, r, s, steps[0], due);
      RunDue(opts, r, Apply(opts, s, steps[0]), steps[1..], DueThen(r, s, steps[0], due));
    }
  }

  lemma BornBudget(opts: Options, b: Birth)
    requires opts.rateLimit.Some?
    ensures var s, r := Born(opts, b), opts.rateLimit.value;
            Awaits(r, s, b.now + r.windowMs) && Budget(s) == Some(r.maxMessages)
  {
    BornInRange(opts, b);
    BornOpens(opts, b);
    SessionAccounts.BornBalance(opts, b);
    BornTold(opts, b);
    SessionAccounts.HeardDatas(opts, [Opened]);
    assert [Opened][..0] == [];
  }

  /** With enough of the budget left, messages are all let through. */
  lemma {:induction false} EnoughIsReported(messages: seq<Option<RawData>>, budget: nat)
    requires |messages| <= budget
    ensures Accounts(Judged(messages, Some(budget)), messages, false)
    decreases |messages|
  {
    if messages != [] {
      EnoughIsReported(messages[1..], budget - 1);
    }
  }

  lemma StepLetsThrough(opts: Options, r: RateLimitOptions, s: State, step: Step)
    requires Inv(s) && InRange(r, s) && s.readyState != OPENING
    requires |Incoming(Brought(s, step))| <= s.meter.limiter.value.remaining
    ensures var t := Apply(opts, s, step);
            && ToldSince(s, t, Incoming(Brought(s, step)), false) && InRange(r, t)
            && (t.meter.limiter.value.remaining == r.maxMessages ||
                t.meter.limiter.value.remaining == s.meter.limiter.value.remaining - |Incoming(Brought(s, step))|)
  {
    StepDue(opts, r, s, step, s.meter.limiter.value.nextReset);
    var messages := Incoming(Brought(s, step));
    if step.LimiterTimer? {
      TickTells(opts, s);
      TickResets(opts, s);
    } else {
      StepTells(opts, s, step);
      EnoughIsReported(messages, s.meter.limiter.value.remaining);
      var told := Told(s.log.events);
      assert (told + Judged(messages, Budget(s)))[|told|..] == Judged(messages, Budget(s));
    }
  }

  lemma {:induction false} RunLetsAllThrough(opts: Options, r: RateLimitOptions, s: State, steps: seq<Step>)
    requires Inv(s) && InRange(r, s) && s.readyState != OPENING
    requires |Arrived(opts, s, steps)| <= s.meter.limiter.value.remaining
    ensures ToldSince(s, Run(opts, s, steps), Arrived(opts, s, steps), false)
    decreases |steps|
  {
    if steps != [] {
      var s1 := Apply(opts, s, steps[0]);
      StepKeeps(opts, s, steps[0]);
      StepLetsThrough(opts, r, s, steps[0]);
      RunLetsAllThrough(opts, r, s1, steps[1..]);
      ToldSinceTrans(s, s1, Run(opts, s1, steps[1..]), Incoming(Brought(s, steps[0])), Arrived(opts, s1, steps[1..]),
                     false);
    }
  }

  /** The whole budget is there. */
  ghost predicate Full(r: RateLimitOptions, s: State) {
    Inv(s) && InRange(r, s) && s.meter.limiter.value.remaining == r.maxMessages
  }

  /** All the messages of these steps are reported with their data. */
  predicate LetsAllThrough(opts: Options, s: State, steps: seq<Step>) {
    ToldSince(s, Run(opts, s, steps), Arrived(opts, s, steps), false)
  }

  predicate AtMost(opts: Options, s: State, steps: seq<Step>, n: nat) {
    |Arrived(opts, s, steps)| <= n
  }

  lemma FullLetsThrough(opts: Options, r: RateLimitOptions, s: State, next: seq<Step>)
    requires Full(r, s) && s.readyState != OPENING && AtMost(opts, s, next, r.maxMessages)
    ensures LetsAllThrough(opts, s, next)
  {
    RunLetsAllThrough(opts, r, s, next);
  }

  lemma LifeDue(opts: Options, b: Birth, steps: seq<Step>)
    requires opts.rateLimit.Some?
    ensures var r := opts.rateLimit.value;
            Awaits(r, Life(opts, b, steps), DueAfter(opts, r, Born(opts, b), steps, b.now + r.windowMs))
  {
    BornBudget(opts, b);
    RunDue(opts, opts.rateLimit.value, Born(opts, b), steps, b.now + opts.rateLimit.value.windowMs);
  }

  lemma TickFills(opts: Options, r: RateLimitOptions, s: State, due: int)
    requires Awaits(r, s, due) && s.readyState != CLOSED && s.heart.now >= due
    ensures Full(r, LimiterTick(s))
  {
    LimiterTickKeeps(s);
  }

  lemma ResetIsFull(opts: Options, r: RateLimitOptions, s: State, due: int)
    requires Awaits(r, s, due) && s.readyState != CLOSED && s.heart.now >= due
    ensures Full(r, Apply(opts, s, LimiterTimer))
  {
    TickFills(opts, r, s, due);
  }

  lemma LifeIsOpened(opts: Options, b: Birth, steps: seq<Step>)
    ensures Life(opts, b, steps).readyState != OPENING
  {
    LifeInv(opts, b, steps);
    BornOpens(opts, b);
  }

  lemma TickedIsOpened(opts: Options, b: Birth, steps: seq<Step>)
    ensures Apply(opts, Life(opts, b, steps), LimiterTimer).readyState != OPENING
  {
    LifeIsOpened(opts, b, steps);
  }

  /** In this run a reset is due. */
  predicate ResetIsDue(opts: Options, b: Birth, steps: seq<Step>)
    requires opts.rateLimit.Some?
  {
    var s, r := Life(opts, b, steps), opts.rateLimit.value;
    s.readyState != CLOSED && s.heart.now >= DueAfter(opts, r, Born(opts, b), steps, b.now + r.windowMs)
  }

  lemma DueTickFills(opts: Options, b: Birth, steps: seq<Step>)
    requires opts.rateLimit.Some? && ResetIsDue(opts, b, steps)
    ensures Full(opts.rateLimit.value, Apply(opts, Life(opts, b, steps), LimiterTimer))
  {
    var r := opts.rateLimit.value;
    LifeDue(opts, b, steps);
    ResetIsFull(opts, r, Life(opts, b, steps), DueAfter(opts, r, Born(opts, b), steps, b.now + r.windowMs));
  }

  /**
   * In every run a tick that reaches a session that is not CLOSED when a reset is due, or
   * its start, gives it the whole budget: of the messages that come next, up to maxMessages
   * are all reported with their data, whatever else happens.
   */
  lemma ResetLetsThrough(opts: Options, b: Birth, steps: seq<Step>, next: seq<Step>)
    requires opts.rateLimit.Some? && ResetIsDue(opts, b, steps)
    requires AtMost(opts, Apply(opts, Life(opts, b, steps), LimiterTimer), next, opts.rateLimit.value.maxMessages)
    ensures LetsAllThrough(opts, Apply(opts, Life(opts, b, steps), LimiterTimer), next)
  {
    DueTickFills(opts, b, steps);
    TickedIsOpened(opts, b, steps);
    FullLetsThrough(opts, opts.rateLimit.value, Apply(opts, Life(opts, b, steps), LimiterTimer), next);
  }

  /** So does the session's start. */
  lemma StartLetsThrough(opts: Options, b: Birth, steps: seq<Step>)
    requires opts.rateLimit.Some? && AtMost(opts, Born(opts, b), steps, opts.rateLimit.value.maxMessages)
    ensures LetsAllThrough(opts, Born(opts, b), steps)
  {
    BornBudget(opts, b);
    BornOpens(opts, b);
    FullLetsThrough(opts, opts.rateLimit.value, Born(opts, b), steps);
  }
}
