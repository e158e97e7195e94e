/**
 * The emitter both transports and sockets are built on. Listeners may change the
 * registrations while they are being called; each call still works on the listeners
 * there were when it started.
 */
module EventEmitter {

  /** A callback, or the wrapper that once() makes for one: each wrapper is a new object. */
  datatype Listener = Plain(fn: nat) | Once(serial: nat, event: string, fn: nat)

  /** What a callback does to the registrations when it runs. */
  datatype Action =
    | AddOn(event: string, fn: nat)
    | AddOnce(event: string, fn: nat)
    | Remove(event: string, fn: nat)
    | RemoveAll(event: string)
    | Clear

  type Registrations = map<string, seq<Listener>>

  /** `calls` is history: the listeners called, in order. */
  datatype State = State(listeners: Registrations, serials: nat, calls: seq<Listener>)

  const Initial := State(map[], 0, [])

  function Add(s: State, event: string, l: Listener): State {
    s.(listeners := s.listeners[event := (if event in s.listeners then s.listeners[event] else []) + [l]])
  }

  function On(s: State, event: string, fn: nat): State {
    Add(s, event, Plain(fn))
  }

  function AddOnceListener(s: State, event: string, fn: nat): State {
    Add(s.(serials := s.serials + 1), event, Once(s.serials, event, fn))
  }

  /** The first match is taken out. */
  function Splice(ls: seq<Listener>, matches: Listener -> bool): seq<Listener> {
    if ls == [] then [] else if matches(ls[0]) then ls[1..] else [ls[0]] + Splice(ls[1..], matches)
  }

  function Off(s: State, event: string, matches: Listener -> bool): State {
    if event !in s.listeners then s
    else
      var left := Splice(s.listeners[event], matches);
      s.(listeners := if left == [] then s.listeners - {event} else s.listeners[event := left])
  }

  /** off() with a callback finds it bare or wrapped. */
  function Matches(fn: nat): Listener -> bool {
    (l: Listener) => l.fn == fn
  }

  /** off() with a wrapper finds nothing else. */
  function Is(wrapper: Listener): Listener -> bool {
    (l: Listener) => l == wrapper
  }

  function Act(s: State, a: Action): State {
    match a
    case AddOn(event, fn) => On(s, event, fn)
    case AddOnce(event, fn) => AddOnceListener(s, event, fn)
    case Remove(event, fn) => Off(s, event, Matches(fn))
    case RemoveAll(event) => s.(listeners := s.listeners - {event})
    case Clear => s.(listeners := map[])
  }

  function ActAll(s: State, actions: seq<Action>): State
    decreases |actions|
  {
    if actions == [] then s else ActAll(Act(s, actions[0]), actions[1..])
  }

  /** What a callback does when it is run, which may depend on how many calls came before. */
  type Script = (nat, nat) -> seq<Action>

  /** Calling a listener: a wrapper first takes itself off. */
  function Call(script: Script, s: State, l: Listener): State {
    var s1 := if l.Once? then Off(s, l.event, Is(l)) else s;
    ActAll(s1.(calls := s1.calls + [l]), script(l.fn, |s.calls|))
  }

  function CallAll(script: Script, s: State, ls: seq<Listener>): State
    decreases |ls|
  {
    if ls == [] then s else CallAll(script, Call(script, s, ls[0]), ls[1..])
  }

  /** The snapshot form: whatever the listeners do, those of the start are called. */
  function Emit(script: Script, s: State, event: string): State {
    if event in s.listeners then CallAll(script, s, s.listeners[event]) else s
  }

  // ----- what emit calls -----

  lemma {:induction false} ActionsCallNobody(s: State, actions: seq<Action>)
    ensures ActAll(s, actions).calls == s.calls
    decreases |actions|
  {
    if actions != [] {
      ActionsCallNobody(Act(s, actions[0]), actions[1..]);
    }
  }

  lemma {:induction false} CallAllCalls(script: Script, s: State, ls: seq<Listener>)
    ensures CallAll(script, s, ls).calls == s.calls + ls
    decreases |ls|
  {
    if ls != [] {
      var s1 := if ls[0].Once? then Off(s, ls[0].event, Is(ls[0])) else s;
      ActionsCallNobody(s1.(calls := s1.calls + [ls[0]]), script(ls[0].fn, |s.calls|));
      CallAllCalls(script, Call(script, s, ls[0]), ls[1..]);
      assert s.calls + [ls[0]] + ls[1..] == s.calls + ls;
    }
  }

  lemma CallOneOrTwo(script: Script, s: State, a: Listener, b: Listener)
    ensures CallAll(script, s, [a]) == Call(script, s, a)
    ensures CallAll(script, s, [a, b]) == Call(script, Call(script, s, a), b)
  {
    assert [a][1..] == [] && [b][1..] == [] && [a, b][1..] == [b];
    assert CallAll(script, s, [a, b]) == CallAll(script, Call(script, s, a), [b]);
    assert CallAll(script, Call(script, s, a), [b]) == CallAll(script, Call(script, Call(script, s, a), b), []);
  }

  /** Every emit calls exactly the listeners there were, once each and in order. */
  lemma EmitCallsSnapshot(script: Script, s: State, event: string)
    ensures Emit(script, s, event).calls == s.calls + (if event in s.listeners then s.listeners[event] else [])
  {
    if event in s.listeners {
      CallAllCalls(script, s, s.listeners[event]);
    }
  }

  // ----- who is registered -----

  /** The first listener with this callback was at i and is gone; there was none if i is at the end. */
  predicate TakesOutAt(ls: seq<Listener>, ls': seq<Listener>, fn: nat, i: nat) {
    && i <= |ls| && (forall j | 0 <= j < i :: ls[j].fn != fn)
    && (if i < |ls| then ls[i].fn == fn && ls' == ls[..i] + ls[i + 1..] else ls' == ls)
  }

  ghost predicate TakesOutFirst(ls: seq<Listener>, ls': seq<Listener>, fn: nat) {
    exists i :: TakesOutAt(ls, ls', fn, i)
  }

  lemma TakesOutLater(ls: seq<Listener>, ls': seq<Listener>, fn: nat, i: nat)
    requires ls != [] && ls[0].fn != fn && TakesOutAt(ls[1..], ls', fn, i)
    ensures TakesOutAt(ls, [ls[0]] + ls', fn, i + 1)
  {
    forall j | 0 <= j < i + 1
      ensures ls[j].fn != fn
    {
      assert j == 0 || ls[j] == ls[1..][j - 1];
    }
    if i < |ls| - 1 {
      assert [ls[0]] + (ls[1..][..i] + ls[1..][i + 1..]) == ls[..i + 1] + ls[i + 2..];
    }
  }

  lemma {:induction false} SpliceTakesFirst(ls: seq<Listener>, fn: nat) returns (i: nat)
    ensures TakesOutAt(ls, Splice(ls, Matches(fn)), fn, i)
  {
    i := 0;
    if ls != [] && ls[0].fn != fn {
      i := SpliceTakesFirst(ls[1..], fn);
      TakesOutLater(ls, Splice(ls[1..], Matches(fn)), fn, i);
      i := i + 1;
    }
  }

  /** How an action changes the listeners of an event: the new one comes last, the first match goes. */
  ghost predicate Changes(a: Action, event: string, serial: nat, ls: seq<Listener>, ls': seq<Listener>) {
    match a
    case AddOn(e, fn) => ls' == (if e == event then ls + [Plain(fn)] else ls)
    case AddOnce(e, fn) => ls' == (if e == event then ls + [Once(serial, event, fn)] else ls)
    case Remove(e, fn) => if e == event then TakesOutFirst(ls, ls', fn) else ls' == ls
    case RemoveAll(e) => ls' == (if e == event then [] else ls)
    case Clear => ls' == []
  }

  function Registered(s: State, event: string): seq<Listener> {
    if event in s.listeners then s.listeners[event] else []
  }

  lemma ActChanges(s: State, a: Action, event: string)
    ensures Changes(a, event, s.serials, Registered(s, event), Registered(Act(s, a), event))
    ensures Act(s, a).calls == s.calls
  {
    if a.Remove? && a.event in s.listeners {
      var i := SpliceTakesFirst(s.listeners[a.event], a.fn);
    } else if a.Remove? {
      assert TakesOutAt([], [], a.fn, 0);
    }
  }

  /** After an action an emit calls whom it would have called before, as the action changed them. */
  lemma EmitCallsRegistered(script: Script, s: State, a: Action, event: string)
    ensures var before, after := Emit(script, s, event).calls, Emit(script, Act(s, a), event).calls;
            && s.calls <= before && s.calls <= after
            && Changes(a, event, s.serials, before[|s.calls|..], after[|s.calls|..])
  {
    ActChanges(s, a, event);
    EmitCallsSnapshot(script, s, event);
    EmitCallsSnapshot(script, Act(s, a), event);
    assert (s.calls + Registered(s, event))[|s.calls|..] == Registered(s, event);
    assert (s.calls + Registered(Act(s, a), event))[|s.calls|..] == Registered(Act(s, a), event);
  }

  // ----- no empty lists -----

  predicate NoEmptyList(m: Registrations) {
    forall event | event in m :: m[event] != []
  }

  lemma ActKeepsNoEmptyList(s: State, a: Action)
    requires NoEmptyList(s.listeners)
    ensures NoEmptyList(Act(s, a).listeners)
  {}

  lemma {:induction false} ActAllKeepsNoEmptyList(s: State, actions: seq<Action>)
    requires NoEmptyList(s.listeners)
    ensures NoEmptyList(ActAll(s, actions).listeners)
    decreases |actions|
  {
    if actions != [] {
      ActKeepsNoEmptyList(s, actions[0]);
      ActAllKeepsNoEmptyList(Act(s, actions[0]), actions[1..]);
    }
  }

  lemma CallKeepsNoEmptyList(script: Script, s: State, l: Listener)
    requires NoEmptyList(s.listeners)
    ensures NoEmptyList(Call(script, s, l).listeners)
  {
    var s1 := if l.Once? then Off(s, l.event, Is(l)) else s;
    ActAllKeepsNoEmptyList(s1.(calls := s1.calls + [l]), script(l.fn, |s.calls|));
  }

  lemma {:induction false} CallAllKeepsNoEmptyList(script: Script, s: State, ls: seq<Listener>)
    requires NoEmptyList(s.listeners)
    ensures NoEmptyList(CallAll(script, s, ls).listeners)
    decreases |ls|
  {
    if ls != [] {
      CallKeepsNoEmptyList(script, s, ls[0]);
      CallAllKeepsNoEmptyList(script, Call(script, s, ls[0]), ls[1..]);
    }
  }

  // ----- runs -----

  datatype Op = Do(action: Action) | DoEmit(event: string)

  function Apply(script: Script, s: State, op: Op): State {
    match op
    case Do(a) => Act(s, a)
    case DoEmit(event) => Emit(script, s, event)
  }

  function Run(script: Script, s: State, ops: seq<Op>): State
    decreases |ops|
  {
    if ops == [] then s else Run(script, Apply(script, s, ops[0]), ops[1..])
  }

  lemma {:induction false} RunKeepsNoEmptyList(script: Script, s: State, ops: seq<Op>)
    requires NoEmptyList(s.listeners)
    ensures NoEmptyList(Run(script, s, ops).listeners)
    decreases |ops|
  {
    if ops != [] {
      match ops[0] {
        case Do(a) => ActKeepsNoEmptyList(s, a);
        case DoEmit(event) =>
          if event in s.listeners {
            CallAllKeepsNoEmptyList(script, s, s.listeners[event]);
          }
      }
      RunKeepsNoEmptyList(script, Apply(script, s, ops[0]), ops[1..]);
    }
  }

  /** In every run an event is in the map exactly while somebody listens to it, so emit's answer tells. */
  lemma EmitAnswersTruly(script: Script, ops: seq<Op>, event: string)
    ensures var s := Run(script, Initial, ops);
            event in s.listeners <==> Emit(script, s, event).calls != s.calls
  {
    var s := Run(script, Initial, ops);
    RunKeepsNoEmptyList(script, Initial, ops);
    EmitCallsSnapshot(script, s, event);
  }

  // ----- once -----

  /** No wrapper twice. */
  predicate Distinct(ls: seq<Listener>) {
    forall i, j | 0 <= i < j < |ls| && ls[i].Once? :: ls[i] != ls[j]
  }

  /** Wrappers of an event that were made already and not called yet. */
  predicate Waiting(ls: seq<Listener>, event: string, serials: nat, calls: seq<Listener>) {
    Distinct(ls) && forall l | l in ls && l.Once? :: l.event == event && l.serial < serials && l !in calls
  }

  predicate OnceInv(s: State) {
    && (forall event | event in s.listeners :: Waiting(s.listeners[event], event, s.serials, s.calls))
    && Distinct(s.calls) && (forall l | l in s.calls && l.Once? :: l.serial < s.serials)
  }

  lemma {:induction false} SpliceKeeps(ls: seq<Listener>, matches: Listener -> bool)
    ensures forall l | l in Splice(ls, matches) :: l in ls
    ensures Distinct(ls) ==> Distinct(Splice(ls, matches))
  {
    if ls != [] && !matches(ls[0]) {
      SpliceKeeps(ls[1..], matches);
      if Distinct(ls) {
        assert ls[0].Once? ==> ls[0] !in ls[1..];
      }
    }
  }

  lemma {:induction false} SpliceRemoves(ls: seq<Listener>, wrapper: Listener)
    requires Distinct(ls) && wrapper.Once?
    ensures wrapper !in Splice(ls, Is(wrapper))
  {
    if ls != [] {
      if ls[0] == wrapper {
        assert wrapper !in ls[1..];
      } else {
        SpliceRemoves(ls[1..], wrapper);
      }
    }
  }

  lemma OffKeepsOnce(s: State, event: string, matches: Listener -> bool)
    requires OnceInv(s)
    ensures OnceInv(Off(s, event, matches))
  {
    if event in s.listeners {
      SpliceKeeps(s.listeners[event], matches);
    }
  }

  lemma AddKeepsOnce(s: State, event: string, l: Listener)
    requires OnceInv(s)
    requires l.Once? ==> l == Once(s.serials, event, l.fn)
    ensures OnceInv(Add(s.(serials := s.serials + 1), event, l))
  {
    var s1 := s.(serials := s.serials + 1);
    var now := if event in s.listeners then s.listeners[event] else [];
    assert Waiting(now, event, s1.serials, s.calls);
    assert l.Once? ==> l !in now;
    assert Waiting(now + [l], event, s1.serials, s.calls);
  }

  lemma ActKeepsOnce(s: State, a: Action)
    requires OnceInv(s)
    ensures OnceInv(Act(s, a)) && s.serials <= Act(s, a).serials
  {
    match a
    case AddOn(event, fn) => PlainKeepsOnce(s, event, fn);
    case AddOnce(event, fn) => AddKeepsOnce(s, event, Once(s.serials, event, fn));
    case Remove(event, fn) => OffKeepsOnce(s, event, Matches(fn));
    case RemoveAll(_) =>
    case Clear =>
  }

  lemma PlainKeepsOnce(s: State, event: string, fn: nat)
    requires OnceInv(s)
    ensures OnceInv(On(s, event, fn))
  {
    var now := if event in s.listeners then s.listeners[event] else [];
    assert Waiting(now + [Plain(fn)], event, s.serials, s.calls);
  }

  lemma {:induction false} ActAllKeepsOnce(s: State, actions: seq<Action>)
    requires OnceInv(s)
    ensures OnceInv(ActAll(s, actions)) && s.serials <= ActAll(s, actions).serials
    decreases |actions|
  {
    if actions != [] {
      ActKeepsOnce(s, actions[0]);
      ActAllKeepsOnce(Act(s, actions[0]), actions[1..]);
    }
  }

  /** A waiting wrapper is taken off as it is called. */
  lemma CallKeepsOnce(script: Script, s: State, l: Listener)
    requires OnceInv(s) && (l.Once? ==> l !in s.calls && l.serial < s.serials)
    ensures OnceInv(Call(script, s, l)) && s.serials <= Call(script, s, l).serials
    ensures Call(script, s, l).calls == s.calls + [l]
  {
    var s1 := if l.Once? then Off(s, l.event, Is(l)) else s;
    var s2 := s1.(calls := s1.calls + [l]);
    if l.Once? {
      OffKeepsOnce(s, l.event, Is(l));
      if l.event in s.listeners {
        SpliceRemoves(s.listeners[l.event], l);
      }
    }
    forall event | event in s2.listeners
      ensures Waiting(s2.listeners[event], event, s2.serials, s2.calls)
    {
      assert Waiting(s1.listeners[event], event, s1.serials, s1.calls);
    }
    assert Distinct(s2.calls);
    ActionsCallNobody(s2, script(l.fn, |s.calls|));
    ActAllKeepsOnce(s2, script(l.fn, |s.calls|));
  }

  lemma {:induction false} CallAllKeepsOnce(script: Script, s: State, event: string, ls: seq<Listener>)
    requires OnceInv(s) && Waiting(ls, event, s.serials, s.calls)
    ensures OnceInv(CallAll(script, s, ls))
    decreases |ls|
  {
    if ls != [] {
      var s1 := Call(script, s, ls[0]);
      CallKeepsOnce(script, s, ls[0]);
      assert Distinct(ls[1..]);
      assert ls[0].Once? ==> ls[0] !in ls[1..];
      CallAllKeepsOnce(script, s1, event, ls[1..]);
    }
  }

  lemma {:induction false} RunKeepsOnce(script: Script, s: State, ops: seq<Op>)
    requires OnceInv(s)
    ensures OnceInv(Run(script, s, ops))
    decreases |ops|
  {
    if ops != [] {
      match ops[0] {
        case Do(a) => ActKeepsOnce(s, a);
        case DoEmit(event) =>
          if event in s.listeners {
            CallAllKeepsOnce(script, s, event, s.listeners[event]);
          }
      }
      RunKeepsOnce(script, Apply(script, s, ops[0]), ops[1..]);
    }
  }

  /** In every run of emits that do not contain one another, a listener added with once() is called at most once. */
  lemma OnceIsOnce(script: Script, ops: seq<Op>)
    ensures var calls := Run(script, Initial, ops).calls;
            forall i, j | 0 <= i < j < |calls| && calls[i].Once? :: calls[i] != calls[j]
  {
    RunKeepsOnce(script, Initial, ops);
  }

  // ----- the emitter object -----

  /** The array an event maps to. Emitting holds on to it while listeners push and splice. */
  class ListenerArray {
    var items: seq<Listener>

    constructor (l: Listener)
      ensures items == [l]
    {
      items := [l];
    }

    /** The indexed loop: the first match goes, the others stay. */
    method SpliceOut(matches: Listener -> bool)
      modifies this
      ensures items == Splice(old(items), matches)
    {
      var i := 0;
      while i < |items|
        invariant i <= |items| && items == old(items)
        invariant Splice(items, matches) == items[..i] + Splice(items[i..], matches)
      {
        assert items[i..][1..] == items[i + 1..];
        if matches(items[i]) {
          items := items[..i] + items[i + 1..];
          return;
        }
        i := i + 1;
      }
    }
  }

  class EventEmitter {
    const script: Script
    var listeners: map<string, ListenerArray>
    ghost var Arrays: set<ListenerArray>
    var serials: nat
    var calls: seq<Listener>

    /** Every event has an array of its own ... */
    ghost predicate Linked()
      reads this`listeners, this`Arrays
    {
      && (forall e | e in listeners :: listeners[e] in Arrays)
      && (forall e, f | e in listeners && f in listeners && e != f :: listeners[e] != listeners[f])
    }

    /** ... with somebody in it. */
    ghost predicate Valid()
      reads this`listeners, this`Arrays, Arrays
    {
      Linked() && forall e | e in listeners :: listeners[e].items != []
    }

    ghost function Lists(): Registrations
      requires Linked()
      reads this`listeners, this`Arrays, Arrays
    {
      map e | e in listeners :: listeners[e].items
    }

    ghost function Abs(): State
      requires Valid()
      reads this, Arrays
    {
      State(Lists(), serials, calls)
    }

    constructor (script: Script)
      ensures Valid() && fresh(Arrays) && this.script == script && Abs() == Initial
    {
      this.script := script;
      listeners, Arrays, serials, calls := map[], {}, 0, [];
    }

    method PushOnto(event: string, l: Listener)
      requires Valid() && event in listeners
      modifies listeners[event]
      ensures Valid() && Lists() == old(Lists())[event := old(Lists())[event] + [l]]
    {
      listeners[event].items := listeners[event].items + [l];
    }

    method StartArray(event: string, l: Listener)
      requires Valid() && event !in listeners
      modifies this`listeners, this`Arrays
      ensures Valid() && fresh(Arrays - old(Arrays)) && Lists() == old(Lists())[event := [l]]
    {
      var made := new ListenerArray(l);
      Attach(event, made);
    }

    /** An array of its own for an event that had none. */
    method Attach(event: string, made: ListenerArray)
      requires Valid() && event !in listeners && made !in Arrays && made.items != []
      modifies this`listeners, this`Arrays
      ensures Valid() && Arrays == old(Arrays) + {made} && Lists() == old(Lists())[event := made.items]
    {
      Arrays := Arrays + {made};
      listeners := listeners[event := made];
    }

    method Push(event: string, l: Listener)
      requires Valid()
      modifies this`listeners, this`Arrays, Arrays
      ensures Valid() && fresh(Arrays - old(Arrays)) && Abs() == Add(old(Abs()), event, l)
    {
      if event in listeners {
        PushOnto(event, l);
      } else {
        StartArray(event, l);
        assert [] + [l] == [l];
      }
    }

    method AddListener(event: string, fn: nat)
      requires Valid()
      modifies this, Arrays
      ensures Valid() && fresh(Arrays - old(Arrays)) && Abs() == On(old(Abs()), event, fn)
    {
      Push(event, Plain(fn));
    }

    method NextSerial() returns (serial: nat)
      requires Valid()
      modifies this`serials
      ensures Valid() && serial == old(serials) && Abs() == old(Abs()).(serials := old(serials) + 1)
    {
      serial := serials;
      serials := serials + 1;
    }

    method AddOneTimeListener(event: string, fn: nat)
      requires Valid()
      modifies this, Arrays
      ensures Valid() && fresh(Arrays - old(Arrays)) && Abs() == AddOnceListener(old(Abs()), event, fn)
    {
      var serial := NextSerial();
      Push(event, Once(serial, event, fn));
    }

    method SpliceFrom(event: string, matches: Listener -> bool) returns (left: nat)
      requires Valid() && event in listeners
      modifies listeners[event]
      ensures Linked() && Lists() == old(Lists())[event := Splice(old(Lists())[event], matches)]
      ensures forall e | e in listeners && e != event :: listeners[e].items != []
      ensures left == |listeners[event].items|
    {
      var ls := listeners[event];
      ls.SpliceOut(matches);
      left := |ls.items|;
    }

    /** The event's array has become empty. */
    method Drop(event: string)
      requires Linked() && event in listeners
      requires forall e | e in listeners && e != event :: listeners[e].items != []
      modifies this`listeners
      ensures Valid() && Lists() == old(Lists()) - {event}
    {
      listeners := listeners - {event};
    }

    /** The first match is spliced out, and an empty array goes. */
    method RemoveListener(event: string, matches: Listener -> bool)
      requires Valid()
      modifies this, Arrays
      ensures Valid() && Arrays == old(Arrays) && Abs() == Off(old(Abs()), event, matches)
    {
      if event !in listeners {
        return;
      }
      var left := SpliceFrom(event, matches);
      if left == 0 {
        Drop(event);
      }
    }

    method RemoveAllListeners(event: string)
      requires Valid()
      modifies this
      ensures Valid() && Arrays == old(Arrays)
      ensures Abs() == old(Abs()).(listeners := old(Abs()).listeners - {event})
    {
      listeners := listeners - {event};
    }

    method ClearListeners()
      requires Valid()
      modifies this
      ensures Valid() && Arrays == old(Arrays) && Abs() == old(Abs()).(listeners := map[])
    {
      listeners := map[];
    }

    method Perform(a: Action)
      requires Valid()
      modifies this, Arrays
      ensures Valid() && fresh(Arrays - old(Arrays)) && Abs() == Act(old(Abs()), a)
    {
      match a
      case AddOn(event, fn) => AddListener(event, fn);
      case AddOnce(event, fn) => AddOneTimeListener(event, fn);
      case Remove(event, fn) => RemoveListener(event, Matches(fn));
      case RemoveAll(event) => RemoveAllListeners(event);
      case Clear => ClearListeners();
    }

    /** The callback itself: whatever its script says. */
    method RunCallback(fn: nat, call: nat)
      requires Valid()
      modifies this, Arrays
      ensures Valid() && fresh(Arrays - old(Arrays)) && Abs() == ActAll(old(Abs()), script(fn, call))
    {
      var actions := script(fn, call);
      ghost var goal := ActAll(Abs(), actions);
      for i := 0 to |actions|
        invariant Valid() && fresh(Arrays - old(Arrays))
        invariant ActAll(Abs(), actions[i..]) == goal
      {
        assert actions[i..][0] == actions[i] && actions[i..][1..] == actions[i + 1..];
        Perform(actions[i]);
      }
    }

    method CallListener(l: Listener)
      requires Valid()
      modifies this, Arrays
      ensures Valid() && fresh(Arrays - old(Arrays)) && Abs() == Call(script, old(Abs()), l)
    {
      if l.Once? {
        RemoveListener(l.event, Is(l));
      }
      var call := |calls|;
      calls := calls + [l];
      RunCallback(l.fn, call);
    }

    /** One listener, two, or a copy of the array: none of the three sees what the listeners change. */
    method EmitEvent(event: string) returns (found: bool)
      requires Valid()
      modifies this, Arrays
      ensures Valid() && fresh(Arrays - old(Arrays)) && found == (event in old(Abs()).listeners)
      ensures Abs() == Emit(script, old(Abs()), event)
    {
      if event !in listeners {
        return false;
      }
      var ls := listeners[event];
      if |ls.items| == 1 {
        CallOneOrTwo(script, Abs(), ls.items[0], ls.items[0]);
        assert ls.items == [ls.items[0]];
        CallListener(ls.items[0]);
      } else if |ls.items| == 2 {
        var a, b := ls.items[0], ls.items[1];
        CallOneOrTwo(script, Abs(), a, b);
        assert ls.items == [a, b];
        CallListener(a);
        CallListener(b);
      } else {
        CallCopy(ls.items);
      }
      return true;
    }

    method CallCopy(snapshot: seq<Listener>)
      requires Valid()
      modifies this, Arrays
      ensures Valid() && fresh(Arrays - old(Arrays)) && Abs() == CallAll(script, old(Abs()), snapshot)
    {
      ghost var goal := CallAll(script, Abs(), snapshot);
      for i := 0 to |snapshot|
        invariant Valid() && fresh(Arrays - old(Arrays))
        invariant CallAll(script, Abs(), snapshot[i..]) == goal
      {
        assert snapshot[i..][0] == snapshot[i] && snapshot[i..][1..] == snapshot[i + 1..];
        CallListener(snapshot[i]);
      }
    }
  }
}
