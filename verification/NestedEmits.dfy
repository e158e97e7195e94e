/**
 * Listeners that emit. A once() listener may then be called more than once; this says
 * exactly when.
 */
module NestedEmits {
  import opened EventEmitter

  /** `pending` holds the listeners that the emits under way still have to call, innermost first. */
  datatype Nested = Nested(base: State, pending: seq<Listener>)

  /** A callback may act on the registrations, start an emit of its own, or return to its caller. */
  datatype Move = Acts(action: Action) | Starts(event: string) | CallsNext

  function Snapshot(s: State, event: string): seq<Listener> {
    if event in s.listeners then s.listeners[event] else []
  }

  function MoveOn(n: Nested, m: Move): Nested {
    match m
    case Acts(a) => n.(base := Act(n.base, a))
    case Starts(event) => n.(pending := Snapshot(n.base, event) + n.pending)
    case CallsNext =>
      if n.pending == [] then n
      else
        var l := n.pending[0];
        var s1 := if l.Once? then Off(n.base, l.event, Is(l)) else n.base;
        Nested(s1.(calls := s1.calls + [l]), n.pending[1..])
  }

  function MoveAll(n: Nested, ms: seq<Move>): Nested
    decreases |ms|
  {
    if ms == [] then n else MoveAll(MoveOn(n, ms[0]), ms[1..])
  }

  /** An emit starts while one of its wrappers is still to be called by an emit around it. */
  predicate Overlap(n: Nested, m: Move) {
    m.Starts? && exists l :: l in Snapshot(n.base, m.event) && l.Once? && l in n.pending
  }

  predicate Overlaps(n: Nested, ms: seq<Move>)
    decreases |ms|
  {
    ms != [] && (Overlap(n, ms[0]) || Overlaps(MoveOn(n, ms[0]), ms[1..]))
  }

  /** Calls made and calls to come. */
  function Due(n: Nested): multiset<Listener> {
    multiset(n.base.calls) + multiset(n.pending)
  }

  /** Some wrapper is called twice, or will be. */
  ghost predicate Twice(n: Nested) {
    exists l: Listener :: l.Once? && Due(n)[l] > 1
  }

  /** A registered wrapper is registered once, under its own event, and was never called. */
  predicate NestedInv(n: Nested) {
    && (forall event | event in n.base.listeners ::
          Waiting(n.base.listeners[event], event, n.base.serials, n.base.calls))
    && (forall l | l in Due(n) && l.Once? :: l.serial < n.base.serials)
  }

  lemma ActKeepsNested(n: Nested, a: Action)
    requires NestedInv(n)
    ensures NestedInv(MoveOn(n, Acts(a)))
  {
    match a
    case AddOn(event, fn) =>
      assert Waiting(Snapshot(n.base, event) + [Plain(fn)], event, n.base.serials, n.base.calls);
    case AddOnce(event, fn) => AddOnceKeepsNested(n, event, Once(n.base.serials, event, fn));
    case Remove(event, fn) => OffKeepsNested(n, event, Matches(fn));
    case RemoveAll(_) =>
    case Clear =>
  }

  lemma AddOnceKeepsNested(n: Nested, event: string, l: Listener)
    requires NestedInv(n) && l == Once(n.base.serials, event, l.fn)
    ensures NestedInv(n.(base := Add(n.base.(serials := n.base.serials + 1), event, l)))
  {
    var now := Snapshot(n.base, event);
    assert Waiting(now, event, n.base.serials + 1, n.base.calls) && l !in now;
    assert l !in Due(n);
    assert Waiting(now + [l], event, n.base.serials + 1, n.base.calls);
  }

  lemma OffKeepsNested(n: Nested, event: string, matches: Listener -> bool)
    requires NestedInv(n)
    ensures NestedInv(n.(base := Off(n.base, event, matches)))
  {
    if event in n.base.listeners {
      SpliceKeeps(n.base.listeners[event], matches);
    }
  }

  lemma StartKeepsNested(n: Nested, event: string)
    requires NestedInv(n)
    ensures NestedInv(MoveOn(n, Starts(event)))
    ensures Due(MoveOn(n, Starts(event))) == Due(n) + multiset(Snapshot(n.base, event))
  {}

  lemma CallKeepsNested(n: Nested)
    requires NestedInv(n) && n.pending != []
    ensures NestedInv(MoveOn(n, CallsNext)) && Due(MoveOn(n, CallsNext)) == Due(n)
  {
    var l := n.pending[0];
    assert n.pending == [l] + n.pending[1..];
    assert Due(MoveOn(n, CallsNext)) == Due(n);
    if l.Once? {
      OffKeepsNested(n, l.event, Is(l));
      if l.event in n.base.listeners {
        SpliceRemoves(n.base.listeners[l.event], l);
      }
    }
  }

  lemma MoveKeepsNested(n: Nested, m: Move)
    requires NestedInv(n)
    ensures NestedInv(MoveOn(n, m))
    ensures Due(MoveOn(n, m)) == Due(n) + (if m.Starts? then multiset(Snapshot(n.base, m.event)) else multiset{})
  {
    match m
    case Acts(a) => ActKeepsNested(n, a);
    case Starts(event) => StartKeepsNested(n, event);
    case CallsNext =>
      if n.pending != [] {
        CallKeepsNested(n);
      }
  }

  lemma {:induction false} DistinctIsOnce(ls: seq<Listener>, l: Listener)
    requires Distinct(ls) && l.Once?
    ensures multiset(ls)[l] == (if l in ls then 1 else 0)
  {
    if ls != [] {
      assert ls == [ls[0]] + ls[1..];
      DistinctIsOnce(ls[1..], l);
    }
  }

  /** A wrapper becomes due a second time exactly when an emit overlaps one that has it pending. */
  lemma MoveTwice(n: Nested, m: Move)
    requires NestedInv(n) && !Twice(n)
    ensures Twice(MoveOn(n, m)) <==> Overlap(n, m)
  {
    MoveKeepsNested(n, m);
    if m.Starts? {
      var ls := Snapshot(n.base, m.event);
      assert Waiting(ls, m.event, n.base.serials, n.base.calls);
      forall l: Listener | l.Once?
        ensures Due(MoveOn(n, m))[l] == Due(n)[l] + (if l in ls then 1 else 0)
        ensures l in ls ==> Due(n)[l] == multiset(n.pending)[l]
      {
        DistinctIsOnce(ls, l);
      }
      if Overlap(n, m) {
        var l :| l in ls && l.Once? && l in n.pending;
        assert Due(MoveOn(n, m))[l] > 1;
      }
    }
  }

  lemma {:induction false} TwiceStays(n: Nested, ms: seq<Move>, l: Listener)
    requires NestedInv(n) && l.Once? && Due(n)[l] > 1
    ensures Due(MoveAll(n, ms))[l] > 1
    decreases |ms|
  {
    if ms != [] {
      MoveKeepsNested(n, ms[0]);
      TwiceStays(MoveOn(n, ms[0]), ms[1..], l);
    }
  }

  lemma {:induction false} RunTwice(n: Nested, ms: seq<Move>)
    requires NestedInv(n) && !Twice(n)
    ensures Twice(MoveAll(n, ms)) <==> Overlaps(n, ms)
    decreases |ms|
  {
    if ms != [] {
      MoveKeepsNested(n, ms[0]);
      MoveTwice(n, ms[0]);
      var n1 := MoveOn(n, ms[0]);
      if Twice(n1) {
        var l: Listener :| l.Once? && Due(n1)[l] > 1;
        TwiceStays(n1, ms[1..], l);
      } else {
        RunTwice(n1, ms[1..]);
      }
    }
  }

  /**
   * In every run that comes to its end, emits inside emits included, some once() listener
   * was called twice exactly when an emit started while an emit around it still had one
   * of its once() listeners to call.
   */
  lemma OnceUnlessOverlap(ms: seq<Move>)
    requires MoveAll(Nested(Initial, []), ms).pending == []
    ensures var calls := MoveAll(Nested(Initial, []), ms).base.calls;
            (exists l: Listener :: l.Once? && multiset(calls)[l] > 1) <==> Overlaps(Nested(Initial, []), ms)
  {
    RunTwice(Nested(Initial, []), ms);
    var n := MoveAll(Nested(Initial, []), ms);
    assert Due(n) == multiset(n.base.calls);
  }

  /** A listener in front of a once() listener emits the event again: the once() listener is called twice. */
  lemma CalledTwiceExample()
    ensures var ms := [Acts(AddOn("e", 0)), Acts(AddOnce("e", 1)), Starts("e"), CallsNext, Starts("e"),
                       CallsNext, CallsNext, CallsNext];
            MoveAll(Nested(Initial, []), ms) ==
            Nested(State(map["e" := [Plain(0)]], 1, [Plain(0), Plain(0), Once(0, "e", 1), Once(0, "e", 1)]), [])
  {
    var a, b := Plain(0), Once(0, "e", 1);
    var ms := [Acts(AddOn("e", 0)), Acts(AddOnce("e", 1)), Starts("e"), CallsNext, Starts("e"),
               CallsNext, CallsNext, CallsNext];
    var n0 := Nested(Initial, []);
    var n2 := Nested(State(map["e" := [a, b]], 1, []), []);
    TwoAdded(n0, n2, a, b);
    var n3 := n2.(pending := [a, b]);
    var n4 := Nested(n2.base.(calls := [a]), [b]);
    var n5 := n4.(pending := [a, b, b]);
    var n6 := Nested(n2.base.(calls := [a, a]), [b, b]);
    var n7 := Nested(State(map["e" := [a]], 1, [a, a, b]), [b]);
    OnceTakenOff(a, b);
    assert MoveOn(n6, CallsNext) == n7;
    var n8 := Nested(State(map["e" := [a]], 1, [a, a, b, b]), []);
    assert MoveOn(n7, CallsNext) == n8;
    assert MoveOn(n2, Starts("e")) == n3 && MoveOn(n3, CallsNext) == n4;
    assert MoveOn(n4, Starts("e")) == n5 && MoveOn(n5, CallsNext) == n6;
    EightMoves(n0, ms);
  }

  lemma TwoAdded(n0: Nested, n2: Nested, a: Listener, b: Listener)
    requires a == Plain(0) && b == Once(0, "e", 1) && n0 == Nested(Initial, [])
    requires n2 == Nested(State(map["e" := [a, b]], 1, []), [])
    ensures MoveOn(MoveOn(n0, Acts(AddOn("e", 0))), Acts(AddOnce("e", 1))) == n2
  {
    var s1 := On(Initial, "e", 0);
    assert [] + [a] == [a] && [a] + [b] == [a, b];
    assert s1.listeners == map["e" := [a]];
    assert AddOnceListener(s1, "e", 1).listeners == map["e" := [a, b]];
  }

  lemma OnceTakenOff(a: Listener, b: Listener)
    requires a.Plain? && b.Once? && b.event == "e"
    ensures forall s: State | s.listeners == map["e" := [a, b]] ::
            Off(s, "e", Is(b)) == s.(listeners := map["e" := [a]])
    ensures forall s: State | s.listeners == map["e" := [a]] :: Off(s, "e", Is(b)) == s
  {
    assert [a, b][1..] == [b] && [a][1..] == [] && [b][1..] == [];
    assert Splice([b], Is(b)) == [] && Splice([a, b], Is(b)) == [a] + Splice([b], Is(b)) == [a];
    assert Splice([a], Is(b)) == [a] + Splice([], Is(b)) == [a];
  }

  lemma EightMoves(n: Nested, ms: seq<Move>)
    requires |ms| == 8
    ensures var n4 := MoveOn(MoveOn(MoveOn(MoveOn(n, ms[0]), ms[1]), ms[2]), ms[3]);
            MoveAll(n, ms) == MoveOn(MoveOn(MoveOn(MoveOn(n4, ms[4]), ms[5]), ms[6]), ms[7])
  {
    FourMoves(n, ms);
    FourMoves(MoveOn(MoveOn(MoveOn(MoveOn(n, ms[0]), ms[1]), ms[2]), ms[3]), ms[4..]);
    assert ms[4..][4..] == [];
  }

  lemma FourMoves(n: Nested, ms: seq<Move>)
    requires |ms| >= 4
    ensures MoveAll(n, ms) == MoveAll(MoveOn(MoveOn(MoveOn(MoveOn(n, ms[0]), ms[1]), ms[2]), ms[3]), ms[4..])
  {
    var n1 := MoveOn(n, ms[0]);
    var n2 := MoveOn(n1, ms[1]);
    var n3 := MoveOn(n2, ms[2]);
    assert ms[1..][1..] == ms[2..] && ms[2..][1..] == ms[3..] && ms[3..][1..] == ms[4..];
    assert MoveAll(n, ms) == MoveAll(n1, ms[1..]);
    assert MoveAll(n1, ms[1..]) == MoveAll(n2, ms[2..]);
    assert MoveAll(n2, ms[2..]) == MoveAll(n3, ms[3..]);
  }
}
