/**
 * The handlers on a session's transports, as listeners of emitters: on a WebSocket while it
 * probes, on the transport that is bound, on one that was replaced or let go. The upgrade
 * handler takes itself off and puts the session's handlers on while the packet that set it
 * off is still being emitted.
 */
module SessionHandlers {
  import opened Packets
  import opened Transport
  import opened Session
  import opened SessionInvariants
  import opened SessionSteps
  import opened SessionHeart
  import opened SessionTheorems
  import E = EventEmitter
  import Parser
  import W = WebSocketTransport

  // The callbacks: four of the session, two of the upgrade.

  const ON_ERROR: nat := 0
  const ON_PACKET: nat := 1
  const ON_DRAIN: nat := 2
  const ON_CLOSE: nat := 3
  const UPGRADE_PACKET: nat := 4
  const UPGRADE_CLOSE: nat := 5

  /** A candidate, with the handlers of the upgrade. */
  const CANDIDATE: E.Registrations :=
    map["close" := [E.Plain(UPGRADE_CLOSE)], "packet" := [E.Plain(UPGRADE_PACKET)]]

  /** What binding a transport registers, in order. */
  const BINDING: seq<E.Action> :=
    [E.AddOnce("error", ON_ERROR), E.AddOn("packet", ON_PACKET), E.AddOn("drain", ON_DRAIN), E.AddOn("close", ON_CLOSE)]

  /** A bound transport. */
  function Bound(serial: nat): E.Registrations {
    map["error" := [E.Once(serial, "error", ON_ERROR)], "packet" := [E.Plain(ON_PACKET)],
        "drain" := [E.Plain(ON_DRAIN)], "close" := [E.Plain(ON_CLOSE)]]
  }

  predicate TakesPacketOver(s: State, p: Packet) {
    p.kind == Upgrade && s.readyState != CLOSED
  }

  /** A packet that makes an open session close its transport, handlers first. */
  predicate ShutsDown(s: State, p: Packet) {
    s.readyState == OPEN && p.kind != Ping && p.kind != Pong && p.kind != Message
  }

  /** What the callbacks do to the registrations of their transport while packet `p` is emitted. */
  function Script(s: State, p: Packet): E.Script {
    (fn: nat, call: nat) =>
      if fn == UPGRADE_PACKET && TakesPacketOver(s, p) then [E.Clear] + BINDING
      else if fn == ON_PACKET && ShutsDown(s, p) then [E.Clear]
      else if fn == UPGRADE_CLOSE then [E.Clear]
      else []
  }

  /** What a callback does to the session. */
  function Handle(opts: Options, s: State, l: E.Listener, p: Packet): State {
    if l.fn == UPGRADE_PACKET && s.probe.transport.Some? then CandidatePacket(opts, s, p)
    else if l.fn == ON_PACKET then OnPacket(opts, s, p)
    else s
  }

  function HandleAll(opts: Options, s: State, ls: seq<E.Listener>, p: Packet): State
    decreases |ls|
  {
    if ls == [] then s else HandleAll(opts, Handle(opts, s, ls[0], p), ls[1..], p)
  }

  /** The listeners an emit of the packet calls. */
  function Called(s: State, e: E.State, p: Packet): seq<E.Listener> {
    var e' := E.Emit(Script(s, p), e, "packet");
    if |e.calls| <= |e'.calls| then e'.calls[|e.calls|..] else []
  }

  lemma CalledIsSnapshot(s: State, e: E.State, p: Packet)
    ensures Called(s, e, p) == (if "packet" in e.listeners then e.listeners["packet"] else [])
  {
    E.EmitCallsSnapshot(Script(s, p), e, "packet");
  }

  lemma HandleOne(opts: Options, s: State, l: E.Listener, p: Packet)
    ensures HandleAll(opts, s, [l], p) == Handle(opts, s, l, p)
  {
    assert [l][1..] == [];
  }

  // ----- what the registrations become -----

  lemma FiveActions(e: E.State, a: E.Action, rest: seq<E.Action>)
    requires |rest| == 4
    ensures E.ActAll(e, [a] + rest) ==
            E.Act(E.Act(E.Act(E.Act(E.Act(e, a), rest[0]), rest[1]), rest[2]), rest[3])
  {
    var e1 := E.Act(e, a);
    var e2 := E.Act(e1, rest[0]);
    var e3 := E.Act(e2, rest[1]);
    var e4 := E.Act(e3, rest[2]);
    assert ([a] + rest)[1..] == rest && rest[1..][1..] == rest[2..] && rest[2..][1..] == rest[3..]
           && rest[3..][1..] == [];
    assert E.ActAll(e, [a] + rest) == E.ActAll(e1, rest);
    assert E.ActAll(e1, rest) == E.ActAll(e2, rest[1..]);
    assert E.ActAll(e2, rest[1..]) == E.ActAll(e3, rest[2..]);
    assert E.ActAll(e3, rest[2..]) == E.ActAll(e4, rest[3..]);
    assert E.ActAll(e4, rest[3..]) == E.ActAll(E.Act(e4, rest[3]), []);
  }

  lemma AddNew(e: E.State, event: string, l: E.Listener)
    requires event !in e.listeners
    ensures E.Add(e, event, l).listeners == e.listeners[event := [l]]
  {
    assert [] + [l] == [l];
  }

  /** The first handler of each event. */
  lemma FourHandlers(e: E.State)
    requires e.listeners == map[]
    ensures E.Act(E.Act(E.Act(E.Act(e, BINDING[0]), BINDING[1]), BINDING[2]), BINDING[3]).listeners == Bound(e.serials)
  {
    var e1 := E.Act(e, BINDING[0]);
    AddNew(e.(serials := e.serials + 1), "error", E.Once(e.serials, "error", ON_ERROR));
    var e2 := E.Act(e1, BINDING[1]);
    AddNew(e1, "packet", E.Plain(ON_PACKET));
    var e3 := E.Act(e2, BINDING[2]);
    AddNew(e2, "drain", E.Plain(ON_DRAIN));
    AddNew(e3, "close", E.Plain(ON_CLOSE));
  }

  /** Binding a transport whose handlers were taken off leaves the session's, one for each event. */
  lemma BindingBinds(e: E.State)
    ensures E.ActAll(e, [E.Clear] + BINDING).listeners == Bound(e.serials)
  {
    FiveActions(e, E.Clear, BINDING);
    FourHandlers(E.Act(e, E.Clear));
  }

  lemma EmitToOne(script: E.Script, e: E.State, event: string, fn: nat)
    requires event in e.listeners && e.listeners[event] == [E.Plain(fn)]
    ensures E.Emit(script, e, event) ==
            E.ActAll(e.(calls := e.calls + [E.Plain(fn)]), script(fn, |e.calls|))
  {
    E.CallOneOrTwo(script, e, E.Plain(fn), E.Plain(fn));
  }

  /**
   * A packet on a candidate is handled by the upgrade handler alone, although the upgrade
   * packet leaves the candidate bound, with the session's handler registered for the next.
   */
  lemma CandidateDispatch(opts: Options, s: State, e: E.State, p: Packet)
    requires e.listeners == CANDIDATE && s.probe.transport.Some?
    ensures Called(s, e, p) == [E.Plain(UPGRADE_PACKET)]
    ensures HandleAll(opts, s, Called(s, e, p), p) == CandidatePacket(opts, s, p)
    ensures E.Emit(Script(s, p), e, "packet").listeners ==
            (if TakesPacketOver(s, p) then Bound(e.serials) else CANDIDATE)
  {
    CalledIsSnapshot(s, e, p);
    HandleOne(opts, s, E.Plain(UPGRADE_PACKET), p);
    EmitToOne(Script(s, p), e, "packet", UPGRADE_PACKET);
    BindingBinds(e.(calls := e.calls + [E.Plain(UPGRADE_PACKET)]));
  }

  /** A packet on a bound transport is handled by the session, which may take its handlers off. */
  lemma BoundDispatch(opts: Options, s: State, e: E.State, p: Packet, serial: nat)
    requires e.listeners == Bound(serial) && s.attached
    ensures Called(s, e, p) == [E.Plain(ON_PACKET)]
    ensures HandleAll(opts, s, Called(s, e, p), p) == TransportPacket(opts, s, p)
    ensures E.Emit(Script(s, p), e, "packet").listeners == (if ShutsDown(s, p) then map[] else Bound(serial))
  {
    CalledIsSnapshot(s, e, p);
    HandleOne(opts, s, E.Plain(ON_PACKET), p);
    EmitToOne(Script(s, p), e, "packet", ON_PACKET);
    OneClear(e.(calls := e.calls + [E.Plain(ON_PACKET)]));
  }

  lemma OneClear(e: E.State)
    ensures E.ActAll(e, [E.Clear]).listeners == map[]
  {
    assert [E.Clear][1..] == [];
    assert E.ActAll(e, [E.Clear]) == E.ActAll(E.Act(e, E.Clear), []);
  }

  /** Without handlers nothing reaches the session. */
  lemma DetachedDispatch(opts: Options, s: State, e: E.State, p: Packet)
    requires e.listeners == map[] && !s.attached
    ensures Called(s, e, p) == [] && HandleAll(opts, s, [], p) == TransportPacket(opts, s, p)
  {
    CalledIsSnapshot(s, e, p);
  }

  /** When the candidate's socket closes, its handlers go. */
  lemma CandidateCloseDetaches(s: State, e: E.State, p: Packet)
    requires e.listeners == CANDIDATE
    ensures E.Emit(Script(s, p), e, "close").listeners == map[]
  {
    EmitToOne(Script(s, p), e, "close", UPGRADE_CLOSE);
    OneClear(e.(calls := e.calls + [E.Plain(UPGRADE_CLOSE)]));
  }

  /** The packet that a frame on the candidate emits, if it emits one. */
  predicate Emits(s: State, frame: RawData) {
    && s.probe.transport.Some? && s.probe.transport.value.link != W.Disconnected
    && Parser.DecodePacket(frame).kind != Close
  }

  lemma FrameOnCandidate(opts: Options, s: State, frame: RawData)
    requires Emits(s, frame)
    ensures Apply(opts, s, ProbeFrameIn(frame)) ==
            CandidatePacket(opts, Probing(s, W.Resume(opts, s.probe.transport.value)), Parser.DecodePacket(frame))
  {}

  lemma SilentFrame(opts: Options, s: State, frame: RawData)
    requires !Emits(s, frame)
    ensures Apply(opts, s, ProbeFrameIn(frame)).log == s.log
  {}

  /**
   * A frame on a candidate does to the session what the listeners called for its packet do.
   * The session's own handler is not among them, not even for the upgrade packet, during
   * which it is registered.
   */
  lemma FrameIsDispatched(opts: Options, s: State, e: E.State, frame: RawData)
    requires e.listeners == CANDIDATE && Emits(s, frame)
    ensures var s1, p := Probing(s, W.Resume(opts, s.probe.transport.value)), Parser.DecodePacket(frame);
            && Apply(opts, s, ProbeFrameIn(frame)) == HandleAll(opts, s1, Called(s1, e, p), p)
            && E.Plain(ON_PACKET) !in Called(s1, e, p)
            && (TakesPacketOver(s1, p) ==> E.Emit(Script(s1, p), e, "packet").listeners == Bound(e.serials))
  {
    FrameOnCandidate(opts, s, frame);
    CandidateDispatch(opts, Probing(s, W.Resume(opts, s.probe.transport.value)), e, Parser.DecodePacket(frame));
  }

  lemma FrameIsNotHeard(opts: Options, s: State, frame: RawData)
    ensures var t := Apply(opts, s, ProbeFrameIn(frame));
            Heard(t.log.events) == Heard(s.log.events) && Seen(t.log.trace) == Seen(s.log.trace)
  {
    if Emits(s, frame) {
      FrameOnCandidate(opts, s, frame);
      CandidatePacketUntouched(opts, Probing(s, W.Resume(opts, s.probe.transport.value)), Parser.DecodePacket(frame));
    } else {
      SilentFrame(opts, s, frame);
    }
  }

  // ----- the emitters of a session's transports, over its runs -----

  /** What the upgrade registers on a candidate, in order. */
  const UPGRADING: seq<E.Action> := [E.AddOn("close", UPGRADE_CLOSE), E.AddOn("packet", UPGRADE_PACKET)]

  /** The emitters of the bound transport, of the candidate, and of the transport that was replaced. */
  datatype Wiring = Wiring(bound: E.State, candidate: E.State, retired: E.State)

  const Unwired := Wiring(E.ActAll(E.Initial, BINDING), E.Initial, E.Initial)

  /** Bun's WebSocket is new, or it speaks, or it is gone. */
  function RewireCandidate(opts: Options, s: State, step: Step, x: Wiring): Wiring {
    match step
    case UpgradeIn(_) =>
      if s.readyState == CLOSED || s.ws.Some? || s.upgradeState != NotUpgraded then x
      else x.(candidate := E.ActAll(E.Initial, UPGRADING))
    case ProbeFrameIn(frame) =>
      if !Emits(s, frame) then x
      else
        var s1, p := Probing(s, W.Resume(opts, s.probe.transport.value)), Parser.DecodePacket(frame);
        var e := E.Emit(Script(s1, p), x.candidate, "packet");
        if TakesPacketOver(s1, p) then Wiring(e, E.Initial, E.Act(x.bound, E.Clear)) else x.(candidate := e)
    case ProbeClose =>
      if s.probe.transport.None? then x
      else x.(candidate := E.Emit(Script(s, Packet(Close, None)), x.candidate, "close"))
    case _ => x
  }

  /** A session that closes takes the handlers off the transport it is bound to. */
  function LetGo(s: State, t: State, x: Wiring): Wiring {
    if s.readyState != CLOSED && t.readyState == CLOSED then x.(bound := E.Act(x.bound, E.Clear)) else x
  }

  function Rewire(opts: Options, s: State, step: Step, x: Wiring): Wiring {
    LetGo(s, Apply(opts, s, step), RewireCandidate(opts, s, step, x))
  }

  function WiringRun(opts: Options, s: State, x: Wiring, steps: seq<Step>): Wiring
    decreases |steps|
  {
    if steps == [] then x else WiringRun(opts, Apply(opts, s, steps[0]), Rewire(opts, s, steps[0], x), steps[1..])
  }

  ghost predicate IsBound(m: E.Registrations) {
    exists serial: nat :: m == Bound(serial)
  }

  /** Which handlers are where. */
  ghost predicate Wired(s: State, x: Wiring) {
    && (if s.attached then IsBound(x.bound.listeners) else x.bound.listeners == map[])
    && (s.probe.transport.Some? ==> x.candidate.listeners == CANDIDATE)
    && (s.upgradeState == Upgraded ==> x.retired.listeners == map[])
  }

  lemma UpgradingRegisters()
    ensures E.ActAll(E.Initial, UPGRADING).listeners == CANDIDATE
  {
    var e1 := E.Act(E.Initial, UPGRADING[0]);
    AddNew(E.Initial, "close", E.Plain(UPGRADE_CLOSE));
    AddNew(e1, "packet", E.Plain(UPGRADE_PACKET));
    assert UPGRADING[1..][1..] == [];
    assert E.ActAll(E.Initial, UPGRADING) == E.ActAll(e1, UPGRADING[1..]);
    assert E.ActAll(e1, UPGRADING[1..]) == E.ActAll(E.Act(e1, UPGRADING[1]), []);
  }

  lemma BornWired(opts: Options, b: Birth)
    ensures Wired(Born(opts, b), Unwired)
  {
    BornOpens(opts, b);
    BornTransport(opts, b);
    FourActions(E.Initial, BINDING);
    FourHandlers(E.Initial);
  }

  lemma FourActions(e: E.State, acts: seq<E.Action>)
    requires |acts| == 4
    ensures E.ActAll(e, acts) == E.Act(E.Act(E.Act(E.Act(e, acts[0]), acts[1]), acts[2]), acts[3])
  {
    var e1 := E.Act(e, acts[0]);
    var e2 := E.Act(e1, acts[1]);
    var e3 := E.Act(e2, acts[2]);
    assert acts[1..][1..] == acts[2..] && acts[2..][1..] == acts[3..] && acts[3..][1..] == [];
    assert E.ActAll(e, acts) == E.ActAll(e1, acts[1..]);
    assert E.ActAll(e1, acts[1..]) == E.ActAll(e2, acts[2..]);
    assert E.ActAll(e2, acts[2..]) == E.ActAll(e3, acts[3..]);
    assert E.ActAll(e3, acts[3..]) == E.ActAll(E.Act(e3, acts[3]), []);
  }

  // What the steps do to the upgrade.

  lemma {:induction false} PostKeepsUpgrade(opts: Options, s: State, ps: seq<Packet>)
    ensures PostArrives(opts, s, ps).upgradeState == s.upgradeState
    ensures PostArrives(opts, s, ps).probe == s.probe
    decreases |ps|
  {
    if ps != [] {
      PostedKeepsUpgrade(opts, s, ps[0]);
      PostKeepsUpgrade(opts, PostedPacket(opts, s, ps[0]), ps[1..]);
    }
  }

  lemma PostedKeepsUpgrade(opts: Options, s: State, p: Packet)
    ensures PostedPacket(opts, s, p).upgradeState == s.upgradeState && PostedPacket(opts, s, p).probe == s.probe
  {}

  lemma FlushKeepsUpgrade(opts: Options, s: State)
    ensures Flush(opts, s).upgradeState == s.upgradeState && Flush(opts, s).probe == s.probe
  {}

  lemma FrameKeepsUpgrade(opts: Options, s: State, frame: RawData)
    ensures FrameArrives(opts, s, frame).upgradeState == s.upgradeState && FrameArrives(opts, s, frame).probe == s.probe
  {
    if s.ws.Some? {
      FlushKeepsUpgrade(opts, s.(ws := Some(W.Resume(opts, s.ws.value))));
      DispatchKeepsUpgrade(opts, Resumed(opts, s), frame);
    }
  }

  lemma DispatchKeepsUpgrade(opts: Options, s: State, frame: RawData)
    ensures Dispatch(opts, s, frame).upgradeState == s.upgradeState && Dispatch(opts, s, frame).probe == s.probe
  {}

  predicate IsUpgradeStep(step: Step) {
    || step.UpgradeIn? || step.ProbeFrameIn? || step.ProbeClose?
    || step.ProbeDrain? || step.UpgradeTimeout?
  }

  lemma OuterKeepsUpgrade(opts: Options, s: State, step: Step)
    requires IsOuterStep(step)
    ensures Apply(opts, s, step).upgradeState == s.upgradeState && Apply(opts, s, step).probe == s.probe
  {
    if step.PostIn? {
      PostKeepsUpgrade(opts, s, step.packets);
    }
  }

  lemma OtherKeepsUpgrade(opts: Options, s: State, step: Step)
    requires !IsUpgradeStep(step)
    ensures Apply(opts, s, step).upgradeState == s.upgradeState && Apply(opts, s, step).probe == s.probe
  {
    if IsOuterStep(step) {
      OuterKeepsUpgrade(opts, s, step);
    } else if step.FrameIn? {
      FrameKeepsUpgrade(opts, s, step.frame);
    }
  }

  lemma TakeOverUpgrades(opts: Options, s: State, w: W.State)
    ensures TakeOver(opts, s, w).upgradeState == Upgraded && TakeOver(opts, s, w).probe.transport.None?
  {
    FlushKeepsUpgrade(opts, Rebound(s, w));
  }

  lemma CandidatePacketUpgrades(opts: Options, s: State, p: Packet)
    requires s.probe.transport.Some?
    ensures var t := CandidatePacket(opts, s, p);
            if TakesPacketOver(s, p) then t.probe.transport.None?
            else t.upgradeState == s.upgradeState && t.probe.transport.Some? && t.readyState == s.readyState
  {
    if TakesPacketOver(s, p) {
      TakeOverUpgrades(opts, s, s.probe.transport.value);
    }
  }

  lemma CandidateFrameUpgrades(opts: Options, s: State, frame: RawData)
    requires Emits(s, frame)
    ensures var t := Apply(opts, s, ProbeFrameIn(frame));
            if TakesPacketOver(s, Parser.DecodePacket(frame)) then t.probe.transport.None?
            else t.upgradeState == s.upgradeState
  {
    FrameOnCandidate(opts, s, frame);
    CandidatePacketUpgrades(opts, Probing(s, W.Resume(opts, s.probe.transport.value)), Parser.DecodePacket(frame));
  }

  // ... and to the handlers.

  lemma OtherStepWired(opts: Options, s: State, step: Step, x: Wiring)
    requires Wired(s, x) && RewireCandidate(opts, s, step, x) == x
    requires var t := Apply(opts, s, step);
             && (t.attached <==> t.readyState != CLOSED) && (s.attached <==> s.readyState != CLOSED)
             && (s.readyState == CLOSED ==> t.readyState == CLOSED)
             && t.upgradeState == s.upgradeState && (t.probe.transport.Some? ==> s.probe.transport.Some?)
    ensures Wired(Apply(opts, s, step), Rewire(opts, s, step, x))
  {}

  lemma RequestWired(opts: Options, s: State, room: nat, x: Wiring)
    requires Wired(s, x)
    ensures Wired(Apply(opts, s, UpgradeIn(room)), Rewire(opts, s, UpgradeIn(room), x))
  {
    UpgradingRegisters();
  }

  lemma CandidateGoneWired(opts: Options, s: State, x: Wiring)
    requires Wired(s, x)
    ensures Wired(Apply(opts, s, ProbeClose), Rewire(opts, s, ProbeClose, x))
    ensures s.probe.transport.Some? ==> Rewire(opts, s, ProbeClose, x).candidate.listeners == map[]
  {
    if s.probe.transport.Some? {
      CandidateCloseDetaches(s, x.candidate, Packet(Close, None));
    }
  }

  lemma SilentFrameKeeps(opts: Options, s: State, frame: RawData)
    requires !Emits(s, frame)
    ensures var t := Apply(opts, s, ProbeFrameIn(frame));
            && t == s.(probe := t.probe) && (t.probe.transport.Some? <==> s.probe.transport.Some?)
  {}

  /** From s to t the candidate's emitter became `e`, and the candidate was bound, or not. */
  lemma CandidateWired(s: State, t: State, x: Wiring, e: E.State, binds: bool)
    requires Wired(s, x) && (s.attached <==> s.readyState != CLOSED) && (t.attached <==> t.readyState != CLOSED)
    requires s.readyState == CLOSED ==> t.readyState == CLOSED
    requires if binds then s.readyState != CLOSED && IsBound(e.listeners) && t.probe.transport.None?
             else e.listeners == CANDIDATE && t.upgradeState == s.upgradeState
    ensures Wired(t, LetGo(s, t, if binds then Wiring(e, E.Initial, E.Act(x.bound, E.Clear)) else x.(candidate := e)))
  {}

  lemma CandidateFrameWired(opts: Options, s: State, frame: RawData, x: Wiring)
    requires Inv(s) && Wired(s, x)
    ensures Wired(Apply(opts, s, ProbeFrameIn(frame)), Rewire(opts, s, ProbeFrameIn(frame), x))
  {
    if Emits(s, frame) {
      var s1, p := Probing(s, W.Resume(opts, s.probe.transport.value)), Parser.DecodePacket(frame);
      StepKeeps(opts, s, ProbeFrameIn(frame));
      CandidateFrameUpgrades(opts, s, frame);
      CandidateDispatch(opts, s1, x.candidate, p);
      CandidateWired(s, Apply(opts, s, ProbeFrameIn(frame)), x, E.Emit(Script(s1, p), x.candidate, "packet"),
                     TakesPacketOver(s1, p));
    } else {
      SilentFrameKeeps(opts, s, frame);
    }
  }

  lemma StepWired(opts: Options, s: State, step: Step, x: Wiring)
    requires Inv(s) && Wired(s, x)
    ensures Wired(Apply(opts, s, step), Rewire(opts, s, step, x))
  {
    if step.UpgradeIn? {
      RequestWired(opts, s, step.room, x);
    } else if step.ProbeFrameIn? {
      CandidateFrameWired(opts, s, step.frame, x);
    } else if step.ProbeClose? {
      CandidateGoneWired(opts, s, x);
    } else {
      StepKeeps(opts, s, step);
      RestKeepsUpgrade(opts, s, step);
      OtherStepWired(opts, s, step, x);
    }
  }

  lemma RestKeepsUpgrade(opts: Options, s: State, step: Step)
    requires !step.UpgradeIn? && !step.ProbeFrameIn? && !step.ProbeClose?
    ensures var t := Apply(opts, s, step);
            t.upgradeState == s.upgradeState && (t.probe.transport.Some? <==> s.probe.transport.Some?)
  {
    if !IsUpgradeStep(step) {
      OtherKeepsUpgrade(opts, s, step);
    }
  }

  lemma {:induction false} RunWired(opts: Options, s: State, x: Wiring, steps: seq<Step>)
    requires Inv(s) && Wired(s, x)
    ensures Wired(Run(opts, s, steps), WiringRun(opts, s, x, steps))
    decreases |steps|
  {
    if steps != [] {
      StepKeeps(opts, s, steps[0]);
      StepWired(opts, s, steps[0], x);
      RunWired(opts, Apply(opts, s, steps[0]), Rewire(opts, s, steps[0], x), steps[1..]);
    }
  }

  /** The emitters after a run from the handshake. */
  function WiringOf(opts: Options, b: Birth, steps: seq<Step>): Wiring {
    WiringRun(opts, Born(opts, b), Unwired, steps)
  }

  lemma LifeWired(opts: Options, b: Birth, steps: seq<Step>)
    ensures Wired(Life(opts, b, steps), WiringOf(opts, b, steps))
  {
    BornOpens(opts, b);
    BornWired(opts, b);
    RunWired(opts, Born(opts, b), Unwired, steps);
  }

  /**
   * In every run a packet goes where the session expects it: on the bound transport to the
   * session's handler, once that is let go to nobody; on a candidate to the upgrade handler
   * alone; on a transport that was replaced to nobody.
   */
  lemma PacketsFindTheirHandler(opts: Options, b: Birth, steps: seq<Step>, p: Packet)
    ensures var s, x := Life(opts, b, steps), WiringOf(opts, b, steps);
            && Called(s, x.bound, p) == (if s.attached then [E.Plain(ON_PACKET)] else [])
            && HandleAll(opts, s, Called(s, x.bound, p), p) == TransportPacket(opts, s, p)
            && (s.probe.transport.Some? ==>
                  && Called(s, x.candidate, p) == [E.Plain(UPGRADE_PACKET)]
                  && HandleAll(opts, s, Called(s, x.candidate, p), p) == CandidatePacket(opts, s, p))
            && (s.upgradeState == Upgraded ==> Called(s, x.retired, p) == [])
  {
    LifeWired(opts, b, steps);
    Dispatched(opts, Life(opts, b, steps), WiringOf(opts, b, steps), p);
  }

  lemma Dispatched(opts: Options, s: State, x: Wiring, p: Packet)
    requires Wired(s, x)
    ensures Called(s, x.bound, p) == (if s.attached then [E.Plain(ON_PACKET)] else [])
    ensures HandleAll(opts, s, Called(s, x.bound, p), p) == TransportPacket(opts, s, p)
    ensures s.probe.transport.Some? ==>
              && Called(s, x.candidate, p) == [E.Plain(UPGRADE_PACKET)]
              && HandleAll(opts, s, Called(s, x.candidate, p), p) == CandidatePacket(opts, s, p)
    ensures s.upgradeState == Upgraded ==> Called(s, x.retired, p) == []
  {
    if s.attached {
      var serial: nat :| x.bound.listeners == Bound(serial);
      BoundDispatch(opts, s, x.bound, p, serial);
    } else {
      DetachedDispatch(opts, s, x.bound, p);
    }
    if s.probe.transport.Some? {
      CandidateDispatch(opts, s, x.candidate, p);
    }
    CalledIsSnapshot(s, x.retired, p);
  }

  /**
   * In every run a frame on a candidate does to the session what the listeners called for
   * its packet do. The session's own handler is not among them, not even for the upgrade
   * packet, during which it is registered: no data is reported and no packet seen.
   */
  lemma ProbeIsNotHeard(opts: Options, b: Birth, steps: seq<Step>, frame: RawData)
    ensures var s, e := Life(opts, b, steps), WiringOf(opts, b, steps).candidate;
            var t := Apply(opts, s, ProbeFrameIn(frame));
            && Heard(t.log.events) == Heard(s.log.events) && Seen(t.log.trace) == Seen(s.log.trace)
            && (Emits(s, frame) ==>
                  var s1, p := Probing(s, W.Resume(opts, s.probe.transport.value)), Parser.DecodePacket(frame);
                  && t == HandleAll(opts, s1, Called(s1, e, p), p)
                  && E.Plain(ON_PACKET) !in Called(s1, e, p)
                  && (TakesPacketOver(s1, p) ==> E.Emit(Script(s1, p), e, "packet").listeners == Bound(e.serials)))
  {
    LifeWired(opts, b, steps);
    var s := Life(opts, b, steps);
    FrameIsNotHeard(opts, s, frame);
    if Emits(s, frame) {
      FrameIsDispatched(opts, s, WiringOf(opts, b, steps).candidate, frame);
    }
  }
}
