/** The message budget of a session over time: how many messages can be let through in a span of the clock. */
module SessionRate {
  import opened Packets
  import opened Transport
  import opened Session
  import opened SessionInvariants
  import opened SessionSteps
  import opened SessionHeart
  import opened SessionTheorems
  import opened SessionAccounts
  import L = RateLimiting

  /** The messages let through on the way from s to t. */
  function LetThrough(s: State, t: State): int {
    Datas(t.log.events) - Datas(s.log.events)
  }

  /** What was let through was spent, and nothing else of the limiter touched. */
  predicate Spends(s: State, t: State) {
    && s.meter.limiter.Some? && t.meter.limiter.Some? && LetThrough(s, t) >= 0
    && var l, l' := s.meter.limiter.value, t.meter.limiter.value;
       l' == l.(remaining := l'.remaining) && l'.remaining == l.remaining - LetThrough(s, t)
  }

  lemma StepSpends(opts: Options, s: State, step: Step)
    requires Inv(s) && s.meter.limiter.Some? && !step.LimiterTimer?
    ensures Spends(s, Apply(opts, s, step))
  {
    StepBooked(opts, s, step);
    StepKeeps(opts, s, step);
    HeardDatas(opts, s.log.events);
    HeardDatas(opts, Apply(opts, s, step).log.events);
    DatasGrow(s.log.events, Apply(opts, s, step).log.events);
  }

  lemma {:induction false} DatasGrow(es: seq<Event>, fs: seq<Event>)
    requires es <= fs
    ensures Datas(es) <= Datas(fs)
  {
    if es != fs {
      DatasGrow(es, fs[..|fs| - 1]);
    }
  }

  /** No step gives a session a limiter, or takes it away. */
  lemma StepKeepsLimiter(opts: Options, s: State, step: Step)
    requires Inv(s)
    ensures Apply(opts, s, step).meter.limiter.Some? <==> s.meter.limiter.Some?
  {
    if !step.LimiterTimer? {
      StepBooked(opts, s, step);
    }
  }

  lemma {:induction false} RunKeepsLimiter(opts: Options, s: State, steps: seq<Step>)
    requires Inv(s)
    ensures Run(opts, s, steps).meter.limiter.Some? <==> s.meter.limiter.Some?
    decreases |steps|
  {
    if steps != [] {
      StepKeeps(opts, s, steps[0]);
      StepKeepsLimiter(opts, s, steps[0]);
      RunKeepsLimiter(opts, Apply(opts, s, steps[0]), steps[1..]);
    }
  }

  lemma TickResets(opts: Options, s: State)
    requires s.meter.limiter.Some?
    ensures var t := Apply(opts, s, LimiterTimer);
            && t.log == s.log && t.heart == s.heart
            && t.meter.limiter == Some(if s.readyState == CLOSED then s.meter.limiter.value
                                       else L.Tick(s.meter.limiter.value, s.heart.now))
  {}

  /** The limiter of every run is that of the options, within its range. */
  predicate InRange(r: RateLimitOptions, s: State) {
    && s.meter.limiter.Some?
    && var l := s.meter.limiter.value;
       l.maxMessages == r.maxMessages && l.windowMs == r.windowMs && L.InRange(l)
  }

  lemma {:induction false} RunInRange(opts: Options, r: RateLimitOptions, s: State, steps: seq<Step>)
    requires Inv(s) && InRange(r, s)
    ensures InRange(r, Run(opts, s, steps))
    decreases |steps|
  {
    if steps != [] {
      StepKeeps(opts, s, steps[0]);
      if steps[0].LimiterTimer? {
        TickResets(opts, s);
      } else {
        StepSpends(opts, s, steps[0]);
      }
      RunInRange(opts, r, Apply(opts, s, steps[0]), steps[1..]);
    }
  }

  lemma BornInRange(opts: Options, b: Birth)
    requires opts.rateLimit.Some?
    ensures InRange(opts.rateLimit.value, Born(opts, b))
  {
    BornBalance(opts, b);
  }

  /** What is left, now and from the resets to come, pays for one step and the rest. */
  lemma StepPays(r: RateLimitOptions, l: L.State, l': L.State, from: int, next: int, to: int, through: nat, more: int)
    requires r.windowMs > 0 && from <= next <= to
    requires l.windowMs == l'.windowMs == r.windowMs && l.maxMessages == l'.maxMessages == r.maxMessages
    requires l' == l.(remaining := l'.remaining) && l'.remaining == l.remaining - through
    requires more <= l'.remaining + r.maxMessages * L.ResetsLeft(l', next, to)
    ensures through + more <= l.remaining + r.maxMessages * L.ResetsLeft(l, from, to)
  {
    L.LaterStartFits(l, l', from, next, to);
    L.ProductLe(r.maxMessages, L.ResetsLeft(l', next, to), L.ResetsLeft(l, from, to));
  }

  lemma TickPays(r: RateLimitOptions, l: L.State, now: int, to: int, more: int)
    requires r.windowMs > 0 && now <= to && l.windowMs == r.windowMs && l.maxMessages == r.maxMessages
    requires var l' := L.Tick(l, now); more <= l'.remaining + r.maxMessages * L.ResetsLeft(l', now, to)
    ensures more <= l.remaining + r.maxMessages * L.ResetsLeft(l, now, to)
  {
    if L.Due(l, now) {
      var k, k' := L.ResetsLeft(l, now, to), L.ResetsLeft(L.Tick(l, now), now, to);
      L.ResetUsesOne(l, now, now, to);
      L.ProductLe(r.maxMessages, k' + 1, k);
      L.ProductStep(r.maxMessages, k');
    }
  }

  lemma {:induction false} RunLetsThrough(opts: Options, r: RateLimitOptions, s: State, steps: seq<Step>, to: int)
    requires Inv(s) && InRange(r, s) && r.windowMs > 0 && Run(opts, s, steps).heart.now <= to
    ensures s.heart.now <= Run(opts, s, steps).heart.now
    ensures LetThrough(s, Run(opts, s, steps)) <=
            s.meter.limiter.value.remaining + r.maxMessages * L.ResetsLeft(s.meter.limiter.value, s.heart.now, to)
    decreases |steps|
  {
    if steps == [] {
      assert r.maxMessages * L.ResetsLeft(s.meter.limiter.value, s.heart.now, to) >= 0;
    } else {
      var s1 := Apply(opts, s, steps[0]);
      var more := LetThrough(s1, Run(opts, s, steps));
      StepKeeps(opts, s, steps[0]);
      StepSustained(opts, s, steps[0]);
      RunInRange(opts, r, s, [steps[0]]);
      OneStep(opts, s, steps[0]);
      RunLetsThrough(opts, r, s1, steps[1..], to);
      if steps[0].LimiterTimer? {
        TickResets(opts, s);
        if s.readyState != CLOSED {
          TickPays(r, s.meter.limiter.value, s.heart.now, to, more);
        }
      } else {
        StepSpends(opts, s, steps[0]);
        StepPays(r, s.meter.limiter.value, s1.meter.limiter.value, s.heart.now, s1.heart.now, to, LetThrough(s, s1),
            more);
      }
    }
  }

  lemma OneStep(opts: Options, s: State, step: Step)
    ensures Run(opts, s, [step]) == Apply(opts, s, step)
  {
    assert [step][1..] == [];
    assert Run(opts, s, [step]) == Run(opts, Apply(opts, s, step), []);
  }

  lemma SpanPays(r: RateLimitOptions, l: L.State, from: int, to: int, through: int)
    requires r.windowMs > 0 && from <= to && l.windowMs == r.windowMs && l.maxMessages == r.maxMessages && L.InRange(l)
    requires through <= l.remaining + r.maxMessages * L.ResetsLeft(l, from, to)
    ensures through <= r.maxMessages * ((to - from) / r.windowMs + 2)
  {
    var n := (to - from) / r.windowMs;
    L.ResetsInSpan(l, from, to - from);
    L.ProductLe(r.maxMessages, L.ResetsLeft(l, from, to), n + 1);
    L.ProductStep(r.maxMessages, n + 1);
  }

  /** From s to t time goes forward, and lets through what the budget allows. */
  predicate WithinRate(r: RateLimitOptions, s: State, t: State)
    requires r.windowMs > 0
  {
    && s.heart.now <= t.heart.now
    && LetThrough(s, t) <= r.maxMessages * ((t.heart.now - s.heart.now) / r.windowMs + 2)
  }

  lemma RateFrom(opts: Options, r: RateLimitOptions, s: State, more: seq<Step>)
    requires Inv(s) && InRange(r, s) && r.windowMs > 0
    ensures WithinRate(r, s, Run(opts, s, more))
  {
    var t := Run(opts, s, more);
    RunLetsThrough(opts, r, s, more, t.heart.now);
    SpanPays(r, s.meter.limiter.value, s.heart.now, t.heart.now, LetThrough(s, t));
  }

  /**
   * In every run, between any two of its points, a session with a message budget reports at
   * most maxMessages * (time / windowMs + 2) messages, however they come in.
   */
  lemma MessageRateBound(opts: Options, b: Birth, steps: seq<Step>, more: seq<Step>)
    requires opts.rateLimit.Some? && opts.rateLimit.value.windowMs > 0
    ensures WithinRate(opts.rateLimit.value, Life(opts, b, steps), Life(opts, b, steps + more))
  {
    BornOpens(opts, b);
    BornInRange(opts, b);
    LifeInv(opts, b, steps);
    RunInRange(opts, opts.rateLimit.value, Born(opts, b), steps);
    RunConcat(opts, Born(opts, b), steps, more);
    RateFrom(opts, opts.rateLimit.value, Life(opts, b, steps), more);
  }
}
