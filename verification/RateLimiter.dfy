/** Fixed-window message budgets, all reset from one shared tick. */
module RateLimiting {
  import opened Transport

  datatype State = State(remaining: nat, maxMessages: nat, windowMs: nat, nextReset: int)

  function Create(opts: RateLimitOptions, now: int): State {
    State(opts.maxMessages, opts.maxMessages, opts.windowMs, now + opts.windowMs)
  }

  predicate Allows(l: State) {
    l.remaining > 0
  }

  function Consume(l: State): State {
    if l.remaining <= 0 then l else l.(remaining := l.remaining - 1)
  }

  predicate Due(l: State, now: int) {
    now >= l.nextReset
  }

  function Tick(l: State, now: int): State {
    if Due(l, now) then l.(remaining := l.maxMessages, nextReset := now + l.windowMs) else l
  }

  // ----- runs: ticks and messages at non-decreasing times -----

  datatype Event = TickAt(time: int) | MessageAt(time: int)

  function After(l: State, e: Event): State {
    match e
    case TickAt(t) => Tick(l, t)
    case MessageAt(_) => Consume(l)
  }

  function Run(l: State, es: seq<Event>): State
    decreases |es|
  {
    if es == [] then l else Run(After(l, es[0]), es[1..])
  }

  /** How many messages of the run are accepted. */
  function Accepted(l: State, es: seq<Event>): nat
    decreases |es|
  {
    if es == [] then 0
    else (if es[0].MessageAt? && Allows(l) then 1 else 0) + Accepted(After(l, es[0]), es[1..])
  }

  /** Times do not go backwards and stay between `from` and `to`. */
  predicate Within(es: seq<Event>, from: int, to: int) {
    es == [] || (from <= es[0].time <= to && Within(es[1..], es[0].time, to))
  }

  predicate InRange(l: State) {
    l.remaining <= l.maxMessages
  }

  lemma {:induction false} RunStaysInRange(l: State, es: seq<Event>)
    requires InRange(l)
    ensures InRange(Run(l, es))
    ensures Run(l, es).maxMessages == l.maxMessages && Run(l, es).windowMs == l.windowMs
    decreases |es|
  {
    if es != [] {
      RunStaysInRange(After(l, es[0]), es[1..]);
    }
  }

  /** At most this many resets fit between `from` and `to`. */
  function ResetsLeft(l: State, from: int, to: int): nat
    requires l.windowMs > 0
  {
    var first := if from < l.nextReset then l.nextReset else from;
    if to < first then 0 else (to - first) / l.windowMs + 1
  }

  /** A reset at t uses up one of the resets that were left. */
  lemma ResetUsesOne(l: State, from: int, t: int, to: int)
    requires l.windowMs > 0 && from <= t <= to && Due(l, t)
    ensures ResetsLeft(Tick(l, t), t, to) + 1 <= ResetsLeft(l, from, to)
  {
    var w := l.windowMs;
    var first := if from < l.nextReset then l.nextReset else from;
    assert first <= t;
    DivMonotone(to - t, to - first, w);
    if to >= t + w {
      assert to - t == (to - (t + w)) + w;
      DivStep(to - (t + w), w);
    }
  }

  lemma FactorLess(a: int, b: int, d: nat)
    requires a * d < b * d
    ensures a < b
  {}

  lemma DivMonotone(x: nat, y: nat, d: nat)
    requires x <= y && d > 0
    ensures x / d <= y / d
  {
    var q, z := x / d, y / d;
    assert q * d <= x && y < z * d + d;
    assert (z + 1) * d == z * d + d;
    FactorLess(q, z + 1, d);
  }

  lemma DivUnique(x: nat, d: nat, q: nat)
    requires d > 0 && q * d <= x < q * d + d
    ensures x / d == q
  {
    var z := x / d;
    assert z * d <= x < z * d + d;
    assert (q + 1) * d == q * d + d && (z + 1) * d == z * d + d;
    FactorLess(q, z + 1, d);
    FactorLess(z, q + 1, d);
  }

  lemma DivStep(x: nat, d: nat)
    requires d > 0
    ensures (x + d) / d == x / d + 1
  {
    var q := x / d;
    assert q * d <= x < q * d + d;
    assert (q + 1) * d == q * d + d;
    DivUnique(x + d, d, q + 1);
  }

  lemma ProductLe(m: nat, k: nat, n: nat)
    requires k <= n
    ensures m * k <= m * n
  {}

  lemma ProductStep(m: nat, k: nat)
    ensures m * (k + 1) == m * k + m
  {}

  lemma {:induction false} AcceptedBound(l: State, es: seq<Event>, from: int, to: int)
    requires InRange(l) && l.windowMs > 0 && from <= to && Within(es, from, to)
    ensures Accepted(l, es) <= l.remaining + l.maxMessages * ResetsLeft(l, from, to)
    decreases |es|
  {
    if es != [] {
      var t := es[0].time;
      var l' := After(l, es[0]);
      AcceptedBound(l', es[1..], t, to);
      if es[0].TickAt? && Due(l, t) {
        ResetUsesOne(l, from, t, to);
        var k, k' := ResetsLeft(l, from, to), ResetsLeft(l', t, to);
        ProductLe(l.maxMessages, k' + 1, k);
        ProductStep(l.maxMessages, k');
      } else {
        LaterStartFits(l, l', from, t, to);
        var k, k' := ResetsLeft(l, from, to), ResetsLeft(l', t, to);
        ProductLe(l.maxMessages, k', k);
      }
    }
  }

  lemma LaterStartFits(l: State, l': State, from: int, t: int, to: int)
    requires l.windowMs > 0 && l'.windowMs == l.windowMs && l'.nextReset == l.nextReset && from <= t <= to
    ensures ResetsLeft(l', t, to) <= ResetsLeft(l, from, to)
  {
    var first := if from < l.nextReset then l.nextReset else from;
    var later := if t < l.nextReset then l.nextReset else t;
    if later <= to {
      DivMonotone(to - later, to - first, l.windowMs);
    }
  }

  /**
   * In every run, after any past, a span of `length` milliseconds sees at most
   * maxMessages * (length / windowMs + 2) accepted messages.
   */
  lemma WindowBound(opts: RateLimitOptions, start: int, past: seq<Event>, span: seq<Event>, from: int, length: nat)
    requires opts.windowMs > 0
    requires Within(span, from, from + length)
    ensures Accepted(Run(Create(opts, start), past), span) <= opts.maxMessages * (length / opts.windowMs + 2)
  {
    var l := Run(Create(opts, start), past);
    var n := length / opts.windowMs;
    RunStaysInRange(Create(opts, start), past);
    AcceptedBound(l, span, from, from + length);
    ResetsInSpan(l, from, length);
    ProductLe(opts.maxMessages, ResetsLeft(l, from, from + length), n + 1);
    ProductStep(opts.maxMessages, n + 1);
  }

  lemma ResetsInSpan(l: State, from: int, length: nat)
    requires l.windowMs > 0
    ensures ResetsLeft(l, from, from + length) <= length / l.windowMs + 1
  {
    var first := if from < l.nextReset then l.nextReset else from;
    if first <= from + length {
      DivMonotone(from + length - first, length, l.windowMs);
    }
  }

  // ----- when the resets happen -----

  /** The times of the ticks that reset. */
  function ResetTimes(l: State, es: seq<Event>): seq<int>
    decreases |es|
  {
    if es == [] then []
    else (if es[0].TickAt? && Due(l, es[0].time) then [es[0].time] else []) + ResetTimes(After(l, es[0]), es[1..])
  }

  /** Ticks come at most `gap` apart, counting from `previous`. */
  predicate TicksDense(es: seq<Event>, previous: int, gap: nat) {
    es == [] ||
    if es[0].TickAt? then previous <= es[0].time <= previous + gap && TicksDense(es[1..], es[0].time, gap)
    else TicksDense(es[1..], previous, gap)
  }

  function LastTick(es: seq<Event>, previous: int): int {
    if es == [] then previous else LastTick(es[1..], if es[0].TickAt? then es[0].time else previous)
  }

  /** The first of `times` is in [low, low + gap), and each later one in [w, w + gap) after its predecessor. */
  predicate Spaced(times: seq<int>, low: int, w: int, gap: int) {
    && (times != [] ==> low <= times[0] < low + gap)
    && forall i | 0 < i < |times| :: w <= times[i] - times[i - 1] < w + gap
  }

  lemma SpacedCons(time: int, later: seq<int>, low: int, w: int, gap: int)
    requires low <= time < low + gap && Spaced(later, time + w, w, gap)
    ensures Spaced([time] + later, low, w, gap)
  {
    var times := [time] + later;
    forall i | 0 < i < |times|
      ensures w <= times[i] - times[i - 1] < w + gap
    {
      assert times[i] == later[i - 1] && (i > 1 ==> times[i - 1] == later[i - 2]);
    }
  }

  /** The next reset is due a window after the last one. */
  function NextDue(times: seq<int>, first: int, w: nat): int {
    if times == [] then first else times[|times| - 1] + w
  }

  lemma {:induction false} TimesAreSpaced(l: State, es: seq<Event>, previous: int, gap: nat)
    requires l.windowMs > 0 && TicksDense(es, previous, gap) && previous < l.nextReset
    ensures Spaced(ResetTimes(l, es), l.nextReset, l.windowMs, gap)
    decreases |es|
  {
    if es != [] {
      var l' := After(l, es[0]);
      TimesAreSpaced(l', es[1..], if es[0].TickAt? then es[0].time else previous, gap);
      var later := ResetTimes(l', es[1..]);
      if es[0].TickAt? && Due(l, es[0].time) {
        SpacedCons(es[0].time, later, l.nextReset, l.windowMs, gap);
      } else {
        assert ResetTimes(l, es) == later;
      }
    }
  }

  lemma NextDueCons(time: int, later: seq<int>, first: int, w: nat)
    ensures NextDue([time] + later, first, w) == NextDue(later, time + w, w)
  {}

  lemma {:induction false} NoneIsMissing(l: State, es: seq<Event>, previous: int)
    requires l.windowMs > 0 && previous < l.nextReset
    ensures LastTick(es, previous) < NextDue(ResetTimes(l, es), l.nextReset, l.windowMs) == Run(l, es).nextReset
    decreases |es|
  {
    if es != [] {
      var l' := After(l, es[0]);
      NoneIsMissing(l', es[1..], if es[0].TickAt? then es[0].time else previous);
      var later := ResetTimes(l', es[1..]);
      if es[0].TickAt? && Due(l, es[0].time) {
        NextDueCons(es[0].time, later, l.nextReset, l.windowMs);
      } else {
        assert ResetTimes(l, es) == later;
      }
    }
  }

  /**
   * Resets are at least a window apart, and with ticks at most `gap` apart each comes less
   * than `gap` late. None is missing: the last tick is before the time the next one is due.
   */
  lemma ResetsAreSpaced(l: State, es: seq<Event>, previous: int, gap: nat)
    requires l.windowMs > 0 && TicksDense(es, previous, gap) && previous < l.nextReset
    ensures Spaced(ResetTimes(l, es), l.nextReset, l.windowMs, gap)
    ensures LastTick(es, previous) < NextDue(ResetTimes(l, es), l.nextReset, l.windowMs) == Run(l, es).nextReset
  {
    TimesAreSpaced(l, es, previous, gap);
    NoneIsMissing(l, es, previous);
  }

  // ----- what a reset restores -----

  function MessageCount(es: seq<Event>): nat {
    if es == [] then 0 else (if es[0].MessageAt? then 1 else 0) + MessageCount(es[1..])
  }

  lemma {:induction false} EnoughForAll(l: State, es: seq<Event>)
    requires InRange(l) && MessageCount(es) <= l.remaining
    ensures Accepted(l, es) == MessageCount(es)
    decreases |es|
  {
    if es != [] {
      EnoughForAll(After(l, es[0]), es[1..]);
    }
  }

  lemma {:induction false} SpentBetweenResets(l: State, es: seq<Event>)
    requires ResetTimes(l, es) == []
    ensures Accepted(l, es) == (if MessageCount(es) <= l.remaining then MessageCount(es) else l.remaining)
    decreases |es|
  {
    if es != [] {
      SpentBetweenResets(After(l, es[0]), es[1..]);
    }
  }

  lemma {:induction false} RunPush(l: State, es: seq<Event>, e: Event)
    ensures Run(l, es + [e]) == After(Run(l, es), e)
    decreases |es|
  {
    if es == [] {
      assert [e][1..] == [];
    } else {
      assert (es + [e])[1..] == es[1..] + [e];
      RunPush(After(l, es[0]), es[1..], e);
    }
  }

  /**
   * A tick that comes when a reset is due restores the whole budget: of what comes next, up
   * to maxMessages messages are all accepted, and until the next reset no more than that.
   */
  lemma ResetRestoresBudget(l: State, es: seq<Event>, previous: int, t: int, next: seq<Event>)
    requires InRange(l) && l.windowMs > 0 && previous < l.nextReset
    requires t >= NextDue(ResetTimes(l, es), l.nextReset, l.windowMs)
    ensures var reset := Run(l, es + [TickAt(t)]);
            && (MessageCount(next) <= l.maxMessages ==> Accepted(reset, next) == MessageCount(next))
            && (ResetTimes(reset, next) == [] ==>
                  Accepted(reset, next) ==
                  (if MessageCount(next) <= l.maxMessages then MessageCount(next) else l.maxMessages))
  {
    var reset := Run(l, es + [TickAt(t)]);
    NoneIsMissing(l, es, previous);
    RunStaysInRange(l, es);
    RunPush(l, es, TickAt(t));
    assert reset.remaining == l.maxMessages;
    if MessageCount(next) <= l.maxMessages {
      EnoughForAll(reset, next);
    }
    if ResetTimes(reset, next) == [] {
      SpentBetweenResets(reset, next);
    }
  }

  // ----- the limiter object and the shared timer -----

  class RateLimiter {
    var remaining: nat
    const maxMessages: nat
    const windowMs: nat
    var nextReset: int

    ghost function Abs(): State
      reads this
    {
      State(remaining, maxMessages, windowMs, nextReset)
    }

    constructor (opts: RateLimitOptions, now: int)
      ensures Abs() == Create(opts, now)
    {
      maxMessages, windowMs := opts.maxMessages, opts.windowMs;
      remaining := opts.maxMessages;
      nextReset := now + opts.windowMs;
    }

    method TryConsume() returns (allowed: bool)
      modifies this
      ensures allowed == Allows(old(Abs())) && Abs() == Consume(old(Abs()))
    {
      if remaining <= 0 {
        return false;
      }
      remaining := remaining - 1;
      return true;
    }

    /** What a tick of the shared timer does to a limiter. */
    method Refill(now: int)
      modifies this
      ensures Abs() == Tick(old(Abs()), now)
    {
      if now >= nextReset {
        remaining := maxMessages;
        nextReset := now + windowMs;
      }
    }
  }

  /** The registry of limiters, by whatever tells them apart, and whether its timer runs. */
  datatype Timer<T(==)> = Timer(active: set<T>, running: bool)

  /** Limiters are made: the timer starts with the first. */
  function Registered<T(==)>(t: Timer<T>, made: set<T>): Timer<T> {
    if made == {} then t else Timer(t.active + made, true)
  }

  /** Limiters are destroyed: the timer stops with the last. */
  function Destroyed<T(==)>(t: Timer<T>, gone: set<T>): Timer<T> {
    var left := t.active - gone;
    Timer(left, t.running && left != {})
  }

  /** The module-level registry: the limiters in use and the one timer that drives them. */
  class SharedTimer {
    var activeLimiters: set<RateLimiter>
    var running: bool

    /** The timer runs exactly while some limiter is registered. */
    ghost predicate Valid()
      reads this
    {
      running <==> activeLimiters != {}
    }

    ghost function Abs(): Timer<RateLimiter>
      reads this
    {
      Timer(activeLimiters, running)
    }

    constructor ()
      ensures Valid() && Abs() == Timer({}, false)
    {
      activeLimiters, running := {}, false;
    }

    method Register(limiter: RateLimiter)
      requires Valid()
      modifies this
      ensures Valid() && Abs() == Registered(old(Abs()), {limiter})
    {
      activeLimiters := activeLimiters + {limiter};
      if !running {
        running := true;
      }
    }

    method Destroy(limiter: RateLimiter)
      requires Valid()
      modifies this
      ensures Valid() && Abs() == Destroyed(old(Abs()), {limiter})
    {
      activeLimiters := activeLimiters - {limiter};
      if activeLimiters == {} && running {
        running := false;
      }
    }

    /** One tick: every registered limiter that is due is reset, and no other is touched. */
    method OnTick(now: int)
      requires Valid()
      modifies activeLimiters
      ensures Valid()
      ensures forall l | l in activeLimiters :: l.Abs() == Tick(old(l.Abs()), now)
    {
      var rest := activeLimiters;
      while rest != {}
        invariant rest <= activeLimiters
        invariant forall l | l in rest :: l.Abs() == old(l.Abs())
        invariant forall l | l in activeLimiters - rest :: l.Abs() == Tick(old(l.Abs()), now)
        decreases rest
      {
        var limiter :| limiter in rest;
        limiter.Refill(now);
        rest := rest - {limiter};
      }
    }
  }
}
