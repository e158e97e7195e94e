/** What comes in: which packets reach a session, and what it reports of them. */
module SessionInput {
  import opened Packets
  import opened Transport
  import opened Session
  import opened SessionInvariants
  import opened SessionSteps
  import opened SessionHeart
  import opened SessionRefinement
  import opened SessionTheorems
  import opened SessionAccounts
  import opened SessionRate
  import Parser
  import H = Heartbeat
  import P = PollingTransport
  import W = WebSocketTransport

  // ----- what arrives -----

  /** The data of the messages among packets, up to the first packet that ends the session. */
  function Incoming(ps: seq<Packet>): seq<Option<RawData>> {
    if ps == [] then []
    else
      match ps[0].kind
      case Message => [ps[0].data] + Incoming(ps[1..])
      case Ping => Incoming(ps[1..])
      case Pong => Incoming(ps[1..])
      case _ => []
  }

  /**
   * The packets that observers are shown: a packet that ends the session is the last, and
   * "close" is for the transport.
   */
  function Shown(ps: seq<Packet>): seq<Packet> {
    if ps == [] || ps[0].kind == Close then []
    else [ps[0]] + (if ps[0].kind == Message || ps[0].kind == Ping || ps[0].kind == Pong then Shown(ps[1..]) else [])
  }

  /** The packets that a step brings to an OPEN session. */
  function Brought(s: State, step: Step): seq<Packet> {
    if s.readyState != OPEN then []
    else
      match step
      case FrameIn(frame) =>
        if s.ws.Some? && s.ws.value.link != W.Disconnected then [Parser.DecodePacket(frame)] else []
      case PostIn(ps) => if s.ws.None? then ps else []
      case _ => []
  }

  /** A message on a WebSocket is text that starts with '4': observers are not shown it. */
  function ShownBy(s: State, step: Step): seq<Packet> {
    if step.FrameIn? && step.frame.Text? && step.frame.text != "" && step.frame.text[0] == '4' then []
    else Shown(Brought(s, step))
  }

  // ----- what is reported -----

  /** The events about messages: the data, or that it was refused. */
  function Told(es: seq<Event>): seq<Event> {
    if es == [] then []
    else
      var last := es[|es| - 1];
      Told(es[..|es| - 1]) + (if last.Data? || last.RateLimited? then [last] else [])
  }

  /** What is left of the message budget; None without a limit. */
  function Budget(s: State): Option<nat> {
    if s.meter.limiter.Some? then Some(s.meter.limiter.value.remaining) else None
  }

  /** The events that messages cause: data as long as the budget lasts. */
  function Judged(messages: seq<Option<RawData>>, budget: Option<nat>): seq<Event> {
    if messages == [] then []
    else if budget == Some(0) then [RateLimited] + Judged(messages[1..], budget)
    else [Data(messages[0])] + Judged(messages[1..], if budget.Some? then Some(budget.value - 1) else None)
  }

  /** The budget after so many messages. */
  function LeftOf(budget: Option<nat>, n: nat): Option<nat> {
    match budget
    case None => None
    case Some(b) => Some(if n <= b then b - n else 0)
  }

  lemma ToldAppend(es: seq<Event>, e: Event)
    ensures Told(es + [e]) == Told(es) + (if e.Data? || e.RateLimited? then [e] else [])
  {
    assert (es + [e])[..|es|] == es;
  }

  lemma {:induction false} ToldHeard(es: seq<Event>)
    ensures Told(Heard(es)) == Told(es)
  {
    if es != [] {
      ToldHeard(es[..|es| - 1]);
      ToldAppend(Heard(es[..|es| - 1]), es[|es| - 1]);
      assert Heard(es[..|es| - 1]) + [] == Heard(es[..|es| - 1]);
    }
  }

  /** From s to t messages were judged like this, and these packets were shown. */
  predicate Tells(s: State, t: State, messages: seq<Option<RawData>>, shown: seq<Packet>) {
    && Told(t.log.events) == Told(s.log.events) + Judged(messages, Budget(s))
    && Seen(t.log.trace) == Seen(s.log.trace) + shown
    && Budget(t) == LeftOf(Budget(s), |messages|)
  }

  lemma DeafTells(s: State, t: State)
    requires Deaf(s, t) && t.meter.limiter == s.meter.limiter
    ensures Tells(s, t, [], [])
  {
    ToldHeard(s.log.events);
    ToldHeard(t.log.events);
    assert Told(s.log.events) + [] == Told(s.log.events) && Seen(s.log.trace) + [] == Seen(s.log.trace);
  }

  lemma {:induction false} JudgedConcat(xs: seq<Option<RawData>>, ys: seq<Option<RawData>>, budget: Option<nat>)
    ensures Judged(xs + ys, budget) == Judged(xs, budget) + Judged(ys, LeftOf(budget, |xs|))
    decreases |xs|
  {
    if xs == [] {
      assert xs + ys == ys;
    } else {
      assert (xs + ys)[1..] == xs[1..] + ys;
      JudgedConcat(xs[1..], ys, if budget.Some? && budget.value > 0 then Some(budget.value - 1) else budget);
    }
  }

  lemma TellsTrans(s: State, t: State, u: State, xs: seq<Option<RawData>>, ys: seq<Option<RawData>>,
                   ps: seq<Packet>, qs: seq<Packet>)
    requires Tells(s, t, xs, ps) && Tells(t, u, ys, qs)
    ensures Tells(s, u, xs + ys, ps + qs)
  {
    JudgedConcat(xs, ys, Budget(s));
    assert Told(s.log.events) + Judged(xs, Budget(s)) + Judged(ys, Budget(t)) ==
           Told(s.log.events) + (Judged(xs, Budget(s)) + Judged(ys, Budget(t)));
    assert Seen(s.log.trace) + ps + qs == Seen(s.log.trace) + (ps + qs);
  }

  // ----- one packet -----

  lemma OneJudged(data: Option<RawData>, budget: Option<nat>)
    ensures Judged([data], budget) == [if budget == Some(0) then RateLimited else Data(data)]
  {
    assert [data][1..] == [];
  }

  lemma RefusedTells(s: State, data: Option<RawData>)
    requires Budget(s) == Some(0)
    ensures Tells(s, Emit(s, RateLimited), [data], [])
  {
    OneJudged(data, Budget(s));
    ToldAppend(s.log.events, RateLimited);
    assert Seen(s.log.trace) + [] == Seen(s.log.trace);
  }

  lemma ReportedTells(s: State, m: Meter, data: Option<RawData>)
    requires Budget(s) != Some(0) && Budget(s.(meter := m)) == LeftOf(Budget(s), 1)
    ensures Tells(s, Emit(s.(meter := m), Data(data)), [data], [])
  {
    OneJudged(data, Budget(s));
    ToldAppend(s.log.events, Data(data));
    assert Seen(s.log.trace) + [] == Seen(s.log.trace);
  }

  lemma MessageTells(opts: Options, s: State, data: Option<RawData>)
    ensures Tells(s, OnMessage(opts, s, data), [data], [])
  {
    if Budget(s) == Some(0) {
      RefusedTells(s, data);
    } else {
      ReportedTells(s, Tallied(opts, Spent(s.meter), data), data);
    }
  }

  lemma NoteTells(s: State, p: Packet)
    ensures Tells(s, Note(s, PacketSeen(p)), [], [p])
  {
    SeenAppend(s.log.trace, PacketSeen(p));
    assert Told(s.log.events) + [] == Told(s.log.events);
  }

  lemma PongTells(opts: Options, s: State, h: H.State)
    ensures Tells(s, Emit(s.(heart := h), HeartbeatSeen), [], [])
  {
    ToldAppend(s.log.events, HeartbeatSeen);
    assert Told(s.log.events) + [] == Told(s.log.events) && Seen(s.log.trace) + [] == Seen(s.log.trace);
  }

  lemma PongSentTells(opts: Options, s: State)
    requires Inv(s)
    ensures Tells(s, SendPingOrPong(opts, s, Pong), [], []) && SendPingOrPong(opts, s, Pong).readyState == s.readyState
  {
    SendPingOrPongUntouched(opts, s, Pong);
    SendPingOrPongKeeps(opts, s, Pong);
    SendPacketEven(opts, s, Packet(Pong, None));
    PingOrPongIsBuffered(opts, s, Pong);
    SendPacketMeter(opts, s, Packet(Pong, None));
    DeafTells(s, SendPingOrPong(opts, s, Pong));
  }

  lemma SendPacketMeter(opts: Options, s: State, p: Packet)
    requires p.kind != Message
    ensures SendPacket(opts, s, p).meter == s.meter
  {
    SendPacketIsFlush(opts, s, p);
    FlushIdle(opts, Pushed(opts, s, p));
  }

  lemma EndTells(s: State, reason: CloseReason)
    ensures Tells(s, OnClose(s, reason), [], [])
  {
    OnCloseIdle(s, reason);
    DeafTells(s, OnClose(s, reason));
  }

  predicate GoesOn(p: Packet) {
    p.kind == Message || p.kind == Ping || p.kind == Pong
  }

  lemma OnPacketTells(opts: Options, s: State, p: Packet)
    requires Inv(s) && s.readyState == OPEN
    ensures var t := OnPacket(opts, s, p);
            && Tells(s, t, if p.kind == Message then [p.data] else [], [p])
            && (if GoesOn(p) then t.readyState == OPEN else t.readyState == CLOSED)
  {
    var s1 := Note(s, PacketSeen(p));
    SideFields(s, s1);
    NoteTells(s, p);
    match p.kind
    case Pong => PongTells(opts, s1, H.PongAccepted(opts, s1.heart));
    case Ping => PongSentTells(opts, s1);
    case Message => MessageTells(opts, s1, p.data);
    case _ => EndTells(s1, ParseError);
    var messages := if p.kind == Message then [p.data] else [];
    TellsTrans(s, s1, OnPacket(opts, s, p), [], messages, [p], []);
    assert [] + messages == messages && [p] + [] == [p];
  }

  // ----- one step -----

  lemma PostedTells(opts: Options, s: State, p: Packet)
    requires Inv(s) && s.readyState == OPEN && s.ws.None?
    ensures var t := PostedPacket(opts, s, p);
            && Tells(s, t, if p.kind == Message then [p.data] else [], if p.kind == Close then [] else [p])
            && (if GoesOn(p) then t.readyState == OPEN else t.readyState == CLOSED) && t.ws.None?
  {
    if p.kind == Close {
      var s1 := s.(polling := Some(P.DoClose(s.polling.value)));
      FailedIdle(s1);
      DeafTells(s, PostedPacket(opts, s, p));
    } else {
      OnPacketTells(opts, s, p);
      PostedOnPolling(opts, s, p);
    }
  }

  lemma PostedOnPolling(opts: Options, s: State, p: Packet)
    requires s.ws.None?
    ensures PostedPacket(opts, s, p).ws.None?
  {}

  lemma PostIgnored(opts: Options, s: State, ps: seq<Packet>)
    requires Inv(s) && (s.readyState == CLOSING || s.readyState == CLOSED)
    ensures Tells(s, PostArrives(opts, s, ps), [], [])
  {
    PostArrivesDeaf(opts, s, ps);
    PostIgnoredMeter(opts, s, ps);
    DeafTells(s, PostArrives(opts, s, ps));
  }

  lemma {:induction false} PostIgnoredMeter(opts: Options, s: State, ps: seq<Packet>)
    requires s.readyState == CLOSING || s.readyState == CLOSED
    ensures PostArrives(opts, s, ps).meter == s.meter
    decreases |ps|
  {
    if ps != [] {
      PostedPacketStaysShut(opts, s, ps[0]);
      PostIgnoredMeter(opts, PostedPacket(opts, s, ps[0]), ps[1..]);
    }
  }

  lemma {:induction false} PostTells(opts: Options, s: State, ps: seq<Packet>)
    requires Inv(s) && s.readyState == OPEN && s.ws.None?
    ensures Tells(s, PostArrives(opts, s, ps), Incoming(ps), Shown(ps))
    decreases |ps|
  {
    if ps == [] {
      DeafTells(s, s);
    } else {
      var s1 := PostedPacket(opts, s, ps[0]);
      PostedTells(opts, s, ps[0]);
      PostedPacketKeeps(opts, s, ps[0]);
      if GoesOn(ps[0]) {
        PostTells(opts, s1, ps[1..]);
        PostStep(opts, s, s1, ps);
      } else {
        PostIgnored(opts, s1, ps[1..]);
        var shown := if ps[0].kind == Close then [] else [ps[0]];
        TellsTrans(s, s1, PostArrives(opts, s, ps), [], [], shown, []);
        assert shown + [] == shown;
      }
    }
  }

  lemma PostStep(opts: Options, s: State, s1: State, ps: seq<Packet>)
    requires ps != [] && GoesOn(ps[0]) && s1 == PostedPacket(opts, s, ps[0])
    requires Tells(s, s1, if ps[0].kind == Message then [ps[0].data] else [], [ps[0]])
    requires Tells(s1, PostArrives(opts, s1, ps[1..]), Incoming(ps[1..]), Shown(ps[1..]))
    ensures Tells(s, PostArrives(opts, s, ps), Incoming(ps), Shown(ps))
  {
    var messages := if ps[0].kind == Message then [ps[0].data] else [];
    TellsTrans(s, s1, PostArrives(opts, s, ps), messages, Incoming(ps[1..]), [ps[0]], Shown(ps[1..]));
    assert messages + Incoming(ps[1..]) == Incoming(ps);
  }

  /** Input leaves an OPEN session open, and reports nothing, until its packet is dispatched. */
  lemma ResumedStaysOpen(opts: Options, s: State)
    requires Inv(s) && s.readyState == OPEN && s.ws.Some?
    ensures var t := Resumed(opts, s);
            && Inv(t) && t.readyState == OPEN && t.attached && t.log.events == s.log.events
            && t.meter == s.meter && t.heart == s.heart && t.ws.Some? && t.ws.value.link == s.ws.value.link
            && t.out.accepted == s.out.accepted && Tells(s, t, [], [])
  {
    var s1 := s.(ws := Some(W.Resume(opts, s.ws.value)));
    ResumedKeeps(opts, s);
    ResumedUntouched(opts, s);
    FlushIdle(opts, s1);
    assert Base(s1) && PollingOpen(s1);
    FlushKeeps(opts, s1);
    DeafTells(s, Resumed(opts, s));
  }

  lemma OneIncoming(p: Packet)
    ensures Incoming([p]) == (if p.kind == Message then [p.data] else [])
    ensures Shown([p]) == (if p.kind == Close then [] else [p])
  {
    assert [p][1..] == [];
    assert Incoming([]) == [] && Shown([]) == [];
  }

  lemma DispatchTells(opts: Options, s: State, frame: RawData)
    requires Inv(s) && s.readyState == OPEN && s.ws.Some?
    ensures var p := Parser.DecodePacket(frame);
            Tells(s, Dispatch(opts, s, frame), Incoming([p]), if IsMessageText(frame) then [] else Shown([p]))
  {
    var p := Parser.DecodePacket(frame);
    OneIncoming(p);
    if IsMessageText(frame) {
      DecodeMessage(frame);
      MessageTells(opts, s, MessageData(frame));
    } else if p.kind == Close {
      DeafTells(s, Dispatch(opts, s, frame));
    } else {
      OnPacketTells(opts, s, p);
    }
  }

  lemma FrameTells(opts: Options, s: State, frame: RawData)
    requires Inv(s) && s.readyState == OPEN && s.ws.Some? && s.ws.value.link != W.Disconnected
    ensures var p := Parser.DecodePacket(frame);
            Tells(s, FrameArrives(opts, s, frame), Incoming([p]), if IsMessageText(frame) then [] else Shown([p]))
  {
    var s1 := Resumed(opts, s);
    var messages := Incoming([Parser.DecodePacket(frame)]);
    var shown := if IsMessageText(frame) then [] else Shown([Parser.DecodePacket(frame)]);
    ResumedStaysOpen(opts, s);
    DispatchTells(opts, s1, frame);
    assert [] + messages == messages && [] + shown == shown;
    TellsTrans(s, s1, Dispatch(opts, s1, frame), [], messages, [], shown);
  }

  lemma QuietStepDeaf(opts: Options, s: State, step: Step)
    requires Inv(s) && !step.FrameIn? && !step.PostIn?
    ensures Deaf(s, Apply(opts, s, step))
  {
    if IsTimerStep(step) {
      TimerStepDeaf(opts, s, step);
    } else if IsOuterStep(step) {
      OuterStepUntouched(opts, s, step);
    } else {
      ProbeStepUntouched(opts, s, step);
    }
  }

  lemma FrameIgnored(opts: Options, s: State, frame: RawData)
    requires Inv(s) && (s.readyState == CLOSING || s.readyState == CLOSED)
    ensures Tells(s, Apply(opts, s, FrameIn(frame)), [], [])
  {
    FrameArrivesDeaf(opts, s, frame);
    StepDeafMeter(opts, s, FrameIn(frame));
    DeafTells(s, Apply(opts, s, FrameIn(frame)));
  }

  /** A step that lets no message through leaves the limiter alone. */
  lemma StepDeafMeter(opts: Options, s: State, step: Step)
    requires Inv(s) && !step.LimiterTimer? && Deaf(s, Apply(opts, s, step))
    ensures Apply(opts, s, step).meter.limiter == s.meter.limiter
  {
    StepKeepsLimiter(opts, s, step);
    if s.meter.limiter.Some? {
      StepSpends(opts, s, step);
      SpendsNothing(opts, s, Apply(opts, s, step));
    }
  }

  lemma SpendsNothing(opts: Options, s: State, t: State)
    requires Spends(s, t) && Deaf(s, t)
    ensures t.meter.limiter == s.meter.limiter
  {
    HeardDatas(opts, s.log.events);
    HeardDatas(opts, t.log.events);
  }

  /** Every step reports the messages it brings, and shows the packets, and nothing else. */
  lemma StepTells(opts: Options, s: State, step: Step)
    requires Inv(s) && s.readyState != OPENING && !step.LimiterTimer?
    ensures Tells(s, Apply(opts, s, step), Incoming(Brought(s, step)), ShownBy(s, step))
  {
    if step.FrameIn? {
      if s.readyState != OPEN {
        FrameIgnored(opts, s, step.frame);
      } else if s.ws.Some? && s.ws.value.link != W.Disconnected {
        FrameTells(opts, s, step.frame);
      } else {
        DeafTells(s, s);
      }
    } else if step.PostIn? {
      StepPosts(opts, s, step.packets);
    } else {
      QuietStepDeaf(opts, s, step);
      StepDeafMeter(opts, s, step);
      DeafTells(s, Apply(opts, s, step));
    }
  }

  lemma StepPosts(opts: Options, s: State, ps: seq<Packet>)
    requires Inv(s) && s.readyState != OPENING
    ensures Tells(s, PostArrives(opts, s, ps), Incoming(Brought(s, PostIn(ps))), ShownBy(s, PostIn(ps)))
  {
    if s.readyState != OPEN {
      PostIgnored(opts, s, ps);
    } else if s.ws.None? {
      PostTells(opts, s, ps);
    } else {
      LatePostIsNothing(opts, s, ps);
      DeafTells(s, s);
    }
  }

  /** Nobody listens to a polling transport that was replaced. */
  lemma {:induction false} LatePostIsNothing(opts: Options, s: State, ps: seq<Packet>)
    requires Inv(s) && s.ws.Some?
    ensures PostArrives(opts, s, ps) == s
    decreases |ps|
  {
    if ps != [] {
      if s.polling.Some? {
        DoCloseAgain(s.polling.value);
      }
      assert PostedPacket(opts, s, ps[0]) == s;
      LatePostIsNothing(opts, s, ps[1..]);
    }
  }

  lemma TickTells(opts: Options, s: State)
    ensures var t := Apply(opts, s, LimiterTimer);
            Told(t.log.events) == Told(s.log.events) && Seen(t.log.trace) == Seen(s.log.trace)
  {}

  // ----- all runs -----

  /** The messages that reach the session, in order. */
  function Arrived(opts: Options, s: State, steps: seq<Step>): seq<Option<RawData>>
    decreases |steps|
  {
    if steps == [] then [] else Incoming(Brought(s, steps[0])) + Arrived(opts, Apply(opts, s, steps[0]), steps[1..])
  }

  /** The packets that observers are shown, in order. */
  function ShownIn(opts: Options, s: State, steps: seq<Step>): seq<Packet>
    decreases |steps|
  {
    if steps == [] then [] else ShownBy(s, steps[0]) + ShownIn(opts, Apply(opts, s, steps[0]), steps[1..])
  }

  /** One event for each message, which is its data, or with a limit says that it was refused. */
  predicate Accounts(told: seq<Event>, messages: seq<Option<RawData>>, limited: bool) {
    && |told| == |messages|
    && forall i | 0 <= i < |told| :: told[i] == Data(messages[i]) || (limited && told[i] == RateLimited)
  }

  lemma {:induction false} JudgedAccounts(messages: seq<Option<RawData>>, budget: Option<nat>)
    ensures Accounts(Judged(messages, budget), messages, budget.Some?)
    decreases |messages|
  {
    if messages != [] {
      JudgedAccounts(messages[1..], if budget.Some? && budget.value > 0 then Some(budget.value - 1) else budget);
    }
  }

  lemma AccountsConcat(es: seq<Event>, fs: seq<Event>, xs: seq<Option<RawData>>, ys: seq<Option<RawData>>,
                       limited: bool)
    requires Accounts(es, xs, limited) && Accounts(fs, ys, limited)
    ensures Accounts(es + fs, xs + ys, limited)
  {}

  /** Told since: the events behind those of an earlier point. */
  predicate ToldSince(s: State, t: State, messages: seq<Option<RawData>>, limited: bool) {
    && Told(s.log.events) <= Told(t.log.events)
    && Accounts(Told(t.log.events)[|Told(s.log.events)|..], messages, limited)
  }

  lemma StepToldSince(opts: Options, s: State, step: Step)
    requires Inv(s) && s.readyState != OPENING
    ensures ToldSince(s, Apply(opts, s, step), Incoming(Brought(s, step)), s.meter.limiter.Some?)
  {
    if step.LimiterTimer? {
      TickTells(opts, s);
    } else {
      StepTells(opts, s, step);
      JudgedAccounts(Incoming(Brought(s, step)), Budget(s));
      assert (Told(s.log.events) + Judged(Incoming(Brought(s, step)), Budget(s)))[|Told(s.log.events)|..] ==
             Judged(Incoming(Brought(s, step)), Budget(s));
    }
  }

  lemma StepShows(opts: Options, s: State, step: Step)
    requires Inv(s) && s.readyState != OPENING
    ensures Seen(Apply(opts, s, step).log.trace) == Seen(s.log.trace) + ShownBy(s, step)
  {
    if step.LimiterTimer? {
      TickTells(opts, s);
      assert Seen(s.log.trace) + [] == Seen(s.log.trace);
    } else {
      StepTells(opts, s, step);
    }
  }

  lemma ToldSinceTrans(s: State, t: State, u: State, xs: seq<Option<RawData>>, ys: seq<Option<RawData>>, limited: bool)
    requires ToldSince(s, t, xs, limited) && ToldSince(t, u, ys, limited)
    ensures ToldSince(s, u, xs + ys, limited)
  {
    var a, b, c := Told(s.log.events), Told(t.log.events), Told(u.log.events);
    AccountsConcat(b[|a|..], c[|b|..], xs, ys, limited);
    assert c[|a|..] == b[|a|..] + c[|b|..];
  }

  lemma {:induction false} RunTold(opts: Options, s: State, steps: seq<Step>)
    requires Inv(s) && s.readyState != OPENING
    ensures ToldSince(s, Run(opts, s, steps), Arrived(opts, s, steps), s.meter.limiter.Some?)
    decreases |steps|
  {
    if steps != [] {
      var s1 := Apply(opts, s, steps[0]);
      StepKeeps(opts, s, steps[0]);
      StepKeepsLimiter(opts, s, steps[0]);
      StepToldSince(opts, s, steps[0]);
      RunTold(opts, s1, steps[1..]);
      ToldSinceTrans(s, s1, Run(opts, s1, steps[1..]), Incoming(Brought(s, steps[0])), Arrived(opts, s1, steps[1..]),
                     s.meter.limiter.Some?);
    }
  }

  lemma ConcatAgain(xs: seq<Packet>, ys: seq<Packet>, zs: seq<Packet>)
    ensures xs + ys + zs == xs + (ys + zs)
  {}

  lemma {:induction false} RunShows(opts: Options, s: State, steps: seq<Step>)
    requires Inv(s) && s.readyState != OPENING
    ensures Seen(Run(opts, s, steps).log.trace) == Seen(s.log.trace) + ShownIn(opts, s, steps)
    decreases |steps|
  {
    if steps != [] {
      var s1 := Apply(opts, s, steps[0]);
      StepKeeps(opts, s, steps[0]);
      StepShows(opts, s, steps[0]);
      RunShows(opts, s1, steps[1..]);
      ConcatAgain(Seen(s.log.trace), ShownBy(s, steps[0]), ShownIn(opts, s1, steps[1..]));
    }
  }

  lemma BornTold(opts: Options, b: Birth)
    ensures var s := Born(opts, b);
            && s.log.events == [Opened] && Told(s.log.events) == [] && Seen(s.log.trace) == []
            && (s.meter.limiter.Some? <==> opts.rateLimit.Some?)
  {
    var s := Fresh(opts, b.webSocket, b.room, b.now).(readyState := OPEN);
    FreshInv(opts, b);
    SendPacketKeeps(opts, s, OpenPacket(b));
    SendUntouched(opts, s, OpenPacket(b));
    BornBalance(opts, b);
    ToldAppend([], Opened);
    assert [] + [Opened] == [Opened];
  }

  /**
   * In every run each message that reaches the OPEN session is reported, in order, by one
   * event, which is its data or, with a limit, says that it was refused; nothing else is
   * reported as data. Observers are shown the packets that reach the session, in order,
   * except for messages on a WebSocket.
   */
  lemma MessagesAreReported(opts: Options, b: Birth, steps: seq<Step>)
    ensures var t := Life(opts, b, steps);
            && Accounts(Told(t.log.events), Arrived(opts, Born(opts, b), steps), opts.rateLimit.Some?)
            && Seen(t.log.trace) == ShownIn(opts, Born(opts, b), steps)
  {
    BornOpens(opts, b);
    BornTold(opts, b);
    RunTold(opts, Born(opts, b), steps);
    RunShows(opts, Born(opts, b), steps);
    var told := Told(Life(opts, b, steps).log.events);
    assert told[0..] == told;
  }

  /** In every run the messages of a step are reported as long as the budget lasts, and the others refused. */
  lemma MessagesAreJudged(opts: Options, b: Birth, steps: seq<Step>, step: Step)
    requires !step.LimiterTimer?
    ensures var s := Life(opts, b, steps);
            var t := Apply(opts, s, step);
            && Told(t.log.events) == Told(s.log.events) + Judged(Incoming(Brought(s, step)), Budget(s))
            && Budget(t) == LeftOf(Budget(s), |Incoming(Brought(s, step))|)
  {
    LifeInv(opts, b, steps);
    BornOpens(opts, b);
    StepTells(opts, Life(opts, b, steps), step);
  }

  /** A message reached the session: reported with its data and counted with its size, or refused. */
  predicate TakesMessage(opts: Options, s: State, t: State, data: Option<RawData>) {
    if s.meter.limiter.Some? && s.meter.limiter.value.remaining == 0 then
      t.log.events == s.log.events + [RateLimited] && t.meter == s.meter
    else
      && t.log.events == s.log.events + [Data(data)]
      && t.meter.messagesReceived == s.meter.messagesReceived + 1
      && t.meter.bytesReceived == s.meter.bytesReceived + (if data.Some? then opts.byteSize(data.value) else 0)
  }

  lemma MessageDispatched(opts: Options, s: State, frame: RawData, data: Option<RawData>)
    requires s.readyState == OPEN && s.attached && Parser.DecodePacket(frame) == Packet(Message, data)
    ensures TakesMessage(opts, s, Dispatch(opts, s, frame), data)
  {
    if IsMessageText(frame) {
      DecodeMessage(frame);
    }
  }

  /** An OPEN session whose WebSocket can still hear frames. */
  predicate Listening(s: State) {
    s.readyState == OPEN && s.ws.Some? && s.ws.value.link != W.Disconnected
  }

  lemma MessageArrives(opts: Options, s: State, frame: RawData, data: Option<RawData>)
    requires Inv(s) && Listening(s) && Parser.DecodePacket(frame) == Packet(Message, data)
    ensures TakesMessage(opts, s, FrameArrives(opts, s, frame), data)
  {
    ResumedStaysOpen(opts, s);
    MessageDispatched(opts, Resumed(opts, s), frame, data);
  }

  lemma FrameStep(opts: Options, s: State, frame: RawData)
    ensures Apply(opts, s, FrameIn(frame)) == FrameArrives(opts, s, frame)
  {}

  /**
   * In every run a message frame on the WebSocket of an OPEN session is reported with its
   * data and counted with its size, unless the budget is used up: then it is refused.
   */
  lemma FrameIsReported(opts: Options, b: Birth, steps: seq<Step>, frame: RawData, data: Option<RawData>)
    requires Listening(Life(opts, b, steps)) && Parser.DecodePacket(frame) == Packet(Message, data)
    ensures var s := Life(opts, b, steps); TakesMessage(opts, s, Apply(opts, s, FrameIn(frame)), data)
  {
    LifeInv(opts, b, steps);
    MessageArrives(opts, Life(opts, b, steps), frame, data);
    FrameStep(opts, Life(opts, b, steps), frame);
  }

  // ----- the other packets -----

  /** The session took on a packet to send, and reported nothing. */
  predicate Replies(s: State, t: State, p: Packet) {
    t.out.accepted == s.out.accepted + [p] && t.log.events == s.log.events && t.readyState == s.readyState
  }

  lemma PongReplies(opts: Options, s: State)
    requires Inv(s) && s.readyState == OPEN
    ensures Replies(s, SendPingOrPong(opts, s, Pong), Packet(Pong, None))
  {
    var p := Packet(Pong, None);
    PingOrPongIsBuffered(opts, s, Pong);
    SendPacketIsFlush(opts, s, p);
    PushedKeepsBase(opts, s, p);
    FlushKeeps(opts, Pushed(opts, s, p));
  }

  lemma PingDispatched(opts: Options, s: State, frame: RawData)
    requires Inv(s) && s.readyState == OPEN && Parser.DecodePacket(frame).kind == Ping
    ensures Replies(s, Dispatch(opts, s, frame), Packet(Pong, None))
  {
    if IsMessageText(frame) {
      DecodeMessage(frame);
    } else {
      var s1 := Note(s, PacketSeen(Parser.DecodePacket(frame)));
      SideFields(s, s1);
      PongReplies(opts, s1);
    }
  }

  lemma PingArrives(opts: Options, s: State, frame: RawData)
    requires Inv(s) && Listening(s) && Parser.DecodePacket(frame).kind == Ping
    ensures Replies(s, FrameArrives(opts, s, frame), Packet(Pong, None))
  {
    ResumedStaysOpen(opts, s);
    PingDispatched(opts, Resumed(opts, s), frame);
  }

  /** In every run a ping from the client is answered with a pong, and reported to nobody. */
  lemma PingIsAnswered(opts: Options, b: Birth, steps: seq<Step>, frame: RawData)
    requires Listening(Life(opts, b, steps)) && Parser.DecodePacket(frame).kind == Ping
    ensures var s := Life(opts, b, steps); Replies(s, Apply(opts, s, FrameIn(frame)), Packet(Pong, None))
  {
    LifeInv(opts, b, steps);
    PingArrives(opts, Life(opts, b, steps), frame);
    FrameStep(opts, Life(opts, b, steps), frame);
  }

  /** Bun is asked to close the socket, and the session goes on. */
  predicate AsksToClose(s: State, t: State) {
    && t.readyState == s.readyState && t.log.events == s.log.events && s.ws.Some? && t.ws.Some?
    && t.ws.value.link == (if s.ws.value.link == W.Connected then W.Disconnecting else s.ws.value.link)
  }

  lemma CloseDispatched(opts: Options, s: State, frame: RawData)
    requires s.ws.Some? && Parser.DecodePacket(frame).kind == Close
    ensures AsksToClose(s, Dispatch(opts, s, frame))
  {
    if IsMessageText(frame) {
      DecodeMessage(frame);
    }
  }

  lemma CloseFrameArrives(opts: Options, s: State, frame: RawData)
    requires Inv(s) && Listening(s) && Parser.DecodePacket(frame).kind == Close
    ensures AsksToClose(s, FrameArrives(opts, s, frame))
  {
    ResumedStaysOpen(opts, s);
    CloseDispatched(opts, Resumed(opts, s), frame);
  }

  /** In every run a client's close packet on a WebSocket has Bun close the socket; the session goes on until then. */
  lemma CloseFrameAsks(opts: Options, b: Birth, steps: seq<Step>, frame: RawData)
    requires Listening(Life(opts, b, steps)) && Parser.DecodePacket(frame).kind == Close
    ensures var s := Life(opts, b, steps); AsksToClose(s, Apply(opts, s, FrameIn(frame)))
  {
    LifeInv(opts, b, steps);
    CloseFrameArrives(opts, Life(opts, b, steps), frame);
    FrameStep(opts, Life(opts, b, steps), frame);
  }

  /** A session that polls ended: its pending poll, if any, got a noop. */
  predicate EndsWithNoop(s: State, t: State) {
    && t.readyState == CLOSED && t.log.events == s.log.events + [Closed(TransportClose)]
    && s.polling.Some? && t.polling.Some? && t.polling.value.pending.None?
    && t.polling.value.settled ==
       s.polling.value.settled +
       (if s.polling.value.pending.Some?
        then [P.Answered(s.polling.value.pending.value, [Packet(Noop, None)])] else [])
  }

  lemma NoopOnClose(p: P.State)
    requires P.Inv(p) && p.readyState == OPEN
    ensures var q := P.DoClose(p);
            && q.pending.None?
            && q.settled ==
               p.settled + (if p.pending.Some? then [P.Answered(p.pending.value, [Packet(Noop, None)])] else [])
  {
    assert p.settled + [] == p.settled;
  }

  lemma PostedClose(opts: Options, s: State, p: Packet)
    requires Inv(s) && s.readyState == OPEN && s.ws.None? && p.kind == Close
    ensures EndsWithNoop(s, PostArrives(opts, s, [p]))
  {
    var s1 := s.(polling := Some(P.DoClose(s.polling.value)));
    assert [p][1..] == [];
    assert PostArrives(opts, s, [p]) == PostArrives(opts, OnClose(s1, TransportClose), []);
    assert OnClose(s1, TransportClose).polling == s1.polling;
    NoopOnClose(s.polling.value);
  }

  lemma PostStepIs(opts: Options, s: State, ps: seq<Packet>)
    ensures Apply(opts, s, PostIn(ps)) == PostArrives(opts, s, ps)
  {}

  /** In every run the close packet of a client that polls ends the session, and a pending poll gets a noop. */
  lemma PostedCloseEnds(opts: Options, b: Birth, steps: seq<Step>, data: Option<RawData>)
    requires Life(opts, b, steps).readyState == OPEN && Life(opts, b, steps).ws.None?
    ensures var s := Life(opts, b, steps); EndsWithNoop(s, Apply(opts, s, PostIn([Packet(Close, data)])))
  {
    LifeInv(opts, b, steps);
    PostedClose(opts, Life(opts, b, steps), Packet(Close, data));
    PostStepIs(opts, Life(opts, b, steps), [Packet(Close, data)]);
  }

  /** The socket is gone, and the session with it. */
  predicate SocketGone(s: State, t: State) {
    && t.readyState == CLOSED && t.ws.Some? && t.ws.value.link == W.Disconnected
    && t.log.events == s.log.events + (if s.readyState != CLOSED then [Closed(TransportClose)] else [])
  }

  lemma SocketCloses(s: State)
    requires Inv(s) && s.ws.Some? && s.ws.value.link != W.Disconnected
    ensures SocketGone(s, WebSocketCloses(s))
  {
    var s1 := s.(ws := Some(W.CloseEvent(s.ws.value)));
    assert s.log.events + [] == s.log.events;
    assert WebSocketCloses(s) == (if s.attached then OnClose(s1, TransportClose) else s1);
  }

  lemma NothingHeard(opts: Options, s: State, frame: RawData)
    requires s.ws.Some? && s.ws.value.link == W.Disconnected
    ensures Apply(opts, s, FrameIn(frame)) == s
  {}

  lemma SocketCloseStep(opts: Options, s: State)
    ensures Apply(opts, s, WsClose) == WebSocketCloses(s)
  {}

  /** In every run the socket's close event ends the session, and no frame is heard any more. */
  lemma ClosedSocketIsSilent(opts: Options, b: Birth, steps: seq<Step>, frame: RawData)
    requires var s := Life(opts, b, steps); s.ws.Some? && s.ws.value.link != W.Disconnected
    ensures var s := Life(opts, b, steps);
            var t := Apply(opts, s, WsClose);
            SocketGone(s, t) && Apply(opts, t, FrameIn(frame)) == t
  {
    var s := Life(opts, b, steps);
    LifeInv(opts, b, steps);
    SocketCloses(s);
    SocketCloseStep(opts, s);
    NothingHeard(opts, WebSocketCloses(s), frame);
  }
}
