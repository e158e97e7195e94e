/** The heartbeat, beat by beat: what pongs, pings and the passing of time do to its timers. */
module SessionBeats {
  import opened Packets
  import opened Transport
  import opened Session
  import opened SessionInvariants
  import opened SessionSteps
  import opened SessionHeart
  import opened SessionRefinement
  import opened SessionTheorems
  import opened SessionInput
  import Parser
  import H = Heartbeat
  import P = PollingTransport
  import W = WebSocketTransport

  /** The pongs among packets, up to the first packet that ends the session. */
  function Pongs(ps: seq<Packet>): nat {
    if ps == [] || !GoesOn(ps[0]) then 0 else (if ps[0].kind == Pong then 1 else 0) + Pongs(ps[1..])
  }

  /** A beat has just been heard: no pong is due, and the next ping is a whole interval away. */
  predicate Restarted(opts: Options, h: H.State) {
    && h.lastPong == h.now && h.interval == H.Armed(h.now + opts.pingInterval)
    && (h.timeout == None || h.timeout == Some(H.Idle))
  }

  /** Once a ping went out the ping timer is used again; before that every pong leaves the armed one behind. */
  predicate LeavesBehind(h: H.State, h': H.State, n: nat) {
    && (h'.timeout.Some? <==> h.timeout.Some?)
    && (h.timeout.Some? ==> h'.strays == h.strays)
    && (h.timeout.None? ==> |h'.strays| + 1 == |h.strays| + n + (if h.interval.Armed? then 1 else 0))
    && (h.timeout.None? && n == 1 && h.interval.Armed? ==> h'.strays == h.strays + multiset{h.interval.at})
  }

  /** From s to t, at one time, n pongs were heard, and nothing else moved the heartbeat but closing. */
  predicate BeatsWith(opts: Options, s: State, t: State, n: nat) {
    && Beats(t.log.events) == Beats(s.log.events) + n
    && t.heart.now == s.heart.now
    && t.heart.lastPong == (if n > 0 then s.heart.now else s.heart.lastPong)
    && (if t.readyState != CLOSED then
          && s.readyState != CLOSED
          && (if n > 0 then Restarted(opts, t.heart) && LeavesBehind(s.heart, t.heart, n) else t.heart == s.heart)
        else if s.readyState != CLOSED then Stopped(t.heart)
        else t.heart == s.heart)
  }

  lemma BeatsTrans(opts: Options, s: State, t: State, u: State, n: nat, m: nat)
    requires BeatsWith(opts, s, t, n) && BeatsWith(opts, t, u, m)
    ensures BeatsWith(opts, s, u, n + m)
  {}

  lemma UntouchedBeats(opts: Options, s: State, t: State)
    requires Untouched(s, t)
    ensures BeatsWith(opts, s, t, 0)
  {
    BeatsHeard(s.log.events);
    BeatsHeard(t.log.events);
  }

  // ----- packets -----

  lemma PongBeats(opts: Options, s: State)
    requires s.readyState == OPEN
    ensures BeatsWith(opts, s, Emit(s.(heart := H.PongAccepted(opts, s.heart)), HeartbeatSeen), 1)
  {
    BeatsAppend(s.log.events, HeartbeatSeen);
  }

  lemma MessageBeats(opts: Options, s: State, data: Option<RawData>)
    requires s.readyState == OPEN
    ensures BeatsWith(opts, s, OnMessage(opts, s, data), 0)
  {
    BeatsAppend(s.log.events, RateLimited);
    BeatsAppend(s.log.events, Data(data));
  }

  lemma OnPacketBeats(opts: Options, s: State, p: Packet)
    requires s.readyState == OPEN
    ensures BeatsWith(opts, s, OnPacket(opts, s, p), if p.kind == Pong then 1 else 0)
  {
    var s1 := Note(s, PacketSeen(p));
    match p.kind
    case Pong => PongBeats(opts, s1);
    case Ping => PongSentBeats(opts, s1);
    case Message => MessageBeats(opts, s1, p.data);
    case _ => EndBeats(opts, s1, ParseError);
  }

  lemma PongSentBeats(opts: Options, s: State)
    ensures BeatsWith(opts, s, SendPingOrPong(opts, s, Pong), 0)
  {
    SendPingOrPongUntouched(opts, s, Pong);
    UntouchedBeats(opts, s, SendPingOrPong(opts, s, Pong));
  }

  lemma EndBeats(opts: Options, s: State, reason: CloseReason)
    ensures BeatsWith(opts, s, OnClose(s, reason), 0)
  {
    OnCloseUntouched(s, reason);
    UntouchedBeats(opts, s, OnClose(s, reason));
  }

  // ----- steps -----

  lemma PostedBeats(opts: Options, s: State, p: Packet)
    requires Inv(s) && s.readyState == OPEN && s.ws.None?
    ensures BeatsWith(opts, s, PostedPacket(opts, s, p), if p.kind == Pong then 1 else 0)
  {
    if p.kind == Close {
      var s1 := s.(polling := Some(P.DoClose(s.polling.value)));
      FailedUntouched(s1);
      UntouchedBeats(opts, s, PostedPacket(opts, s, p));
    } else {
      OnPacketBeats(opts, s, p);
    }
  }

  lemma {:induction false} PostBeats(opts: Options, s: State, ps: seq<Packet>)
    requires Inv(s) && s.readyState == OPEN && s.ws.None?
    ensures BeatsWith(opts, s, PostArrives(opts, s, ps), Pongs(ps))
    decreases |ps|
  {
    if ps != [] {
      var s1 := PostedPacket(opts, s, ps[0]);
      PostedBeats(opts, s, ps[0]);
      PostedTells(opts, s, ps[0]);
      PostedPacketKeeps(opts, s, ps[0]);
      if GoesOn(ps[0]) {
        PostBeats(opts, s1, ps[1..]);
        BeatsTrans(opts, s, s1, PostArrives(opts, s1, ps[1..]), if ps[0].kind == Pong then 1 else 0, Pongs(ps[1..]));
      } else {
        PostAfterEnd(opts, s1, ps[1..]);
        BeatsTrans(opts, s, s1, PostArrives(opts, s1, ps[1..]), 0, 0);
      }
    }
  }

  lemma PostAfterEnd(opts: Options, s: State, ps: seq<Packet>)
    requires Inv(s) && (s.readyState == CLOSING || s.readyState == CLOSED)
    ensures BeatsWith(opts, s, PostArrives(opts, s, ps), 0)
  {
    PostArrivesDeaf(opts, s, ps);
    PostAfterEndHeart(opts, s, ps);
    UntouchedBeats(opts, s, PostArrives(opts, s, ps));
  }

  lemma {:induction false} PostAfterEndHeart(opts: Options, s: State, ps: seq<Packet>)
    requires s.readyState == CLOSING || s.readyState == CLOSED
    ensures HeartKept(s, PostArrives(opts, s, ps))
    decreases |ps|
  {
    if ps != [] {
      var s1 := PostedPacket(opts, s, ps[0]);
      PostedHeartKept(opts, s, ps[0]);
      PostedPacketStaysShut(opts, s, ps[0]);
      PostAfterEndHeart(opts, s1, ps[1..]);
    }
  }

  lemma PostedHeartKept(opts: Options, s: State, p: Packet)
    requires s.readyState == CLOSING || s.readyState == CLOSED
    ensures HeartKept(s, PostedPacket(opts, s, p))
  {
    if s.polling.Some? && p.kind == Close {
      FailedUntouched(s.(polling := Some(P.DoClose(s.polling.value))));
    }
  }

  lemma StepPostsBeats(opts: Options, s: State, ps: seq<Packet>)
    requires Inv(s) && s.readyState != OPENING
    ensures BeatsWith(opts, s, PostArrives(opts, s, ps), Pongs(Brought(s, PostIn(ps))))
  {
    if s.readyState != OPEN {
      PostAfterEnd(opts, s, ps);
    } else if s.ws.None? {
      PostBeats(opts, s, ps);
    } else {
      LatePostIsNothing(opts, s, ps);
    }
  }

  lemma OnePong(p: Packet)
    ensures Pongs([p]) == (if p.kind == Pong then 1 else 0)
  {
    assert [p][1..] == [];
  }

  lemma DispatchBeats(opts: Options, s: State, frame: RawData)
    requires Inv(s) && s.readyState == OPEN
    ensures BeatsWith(opts, s, Dispatch(opts, s, frame), Pongs([Parser.DecodePacket(frame)]))
  {
    OnePong(Parser.DecodePacket(frame));
    if IsMessageText(frame) {
      DecodeMessage(frame);
      MessageBeats(opts, s, MessageData(frame));
    } else if Parser.DecodePacket(frame).kind != Close {
      OnPacketBeats(opts, s, Parser.DecodePacket(frame));
    }
  }

  lemma FrameBeats(opts: Options, s: State, frame: RawData)
    requires Inv(s) && Listening(s)
    ensures BeatsWith(opts, s, FrameArrives(opts, s, frame), Pongs([Parser.DecodePacket(frame)]))
  {
    var s1 := Resumed(opts, s);
    ResumedStaysOpen(opts, s);
    ResumedUntouched(opts, s);
    UntouchedBeats(opts, s, s1);
    DispatchBeats(opts, s1, frame);
    BeatsTrans(opts, s, s1, Dispatch(opts, s1, frame), 0, Pongs([Parser.DecodePacket(frame)]));
  }

  lemma FrameAfterEnd(opts: Options, s: State, frame: RawData)
    requires Inv(s) && (s.readyState == CLOSING || s.readyState == CLOSED)
    ensures BeatsWith(opts, s, FrameArrives(opts, s, frame), 0)
  {
    if s.ws.Some? && s.ws.value.link != W.Disconnected {
      ResumedKeeps(opts, s);
      ResumedUntouched(opts, s);
      DispatchIgnored(opts, Resumed(opts, s), frame);
      IgnoredHeart(opts, Resumed(opts, s), frame);
      UntouchedBeats(opts, s, FrameArrives(opts, s, frame));
    } else {
      UntouchedBeats(opts, s, s);
    }
  }

  lemma IgnoredHeart(opts: Options, s: State, frame: RawData)
    requires s.readyState != OPEN
    ensures Dispatch(opts, s, frame).heart == s.heart && Dispatch(opts, s, frame).readyState == s.readyState
  {}

  lemma StepFrameBeats(opts: Options, s: State, frame: RawData)
    requires Inv(s) && s.readyState != OPENING
    ensures BeatsWith(opts, s, FrameArrives(opts, s, frame), Pongs(Brought(s, FrameIn(frame))))
  {
    if s.readyState != OPEN {
      FrameAfterEnd(opts, s, frame);
    } else if Listening(s) {
      FrameBeats(opts, s, frame);
    } else {
      UntouchedBeats(opts, s, s);
    }
  }

  lemma QuietBeats(opts: Options, s: State, step: Step)
    requires !IsTimerStep(step) && !step.FrameIn? && !step.PostIn?
    ensures BeatsWith(opts, s, Apply(opts, s, step), 0)
  {
    if IsOuterStep(step) {
      OuterStepUntouched(opts, s, step);
    } else {
      ProbeStepUntouched(opts, s, step);
    }
    UntouchedBeats(opts, s, Apply(opts, s, step));
  }

  lemma StepBeats(opts: Options, s: State, step: Step)
    requires Inv(s) && s.readyState != OPENING && !IsTimerStep(step)
    ensures BeatsWith(opts, s, Apply(opts, s, step), Pongs(Brought(s, step)))
  {
    match step
    case FrameIn(frame) =>
      StepFrameBeats(opts, s, frame);
      FrameStep(opts, s, frame);
    case PostIn(ps) =>
      StepPostsBeats(opts, s, ps);
      PostStepIs(opts, s, ps);
    case _ => QuietBeats(opts, s, step);
  }

  /**
   * In every run each pong that reaches an OPEN session is reported, no pong is due any
   * more, and the next ping goes out a whole interval later. Nothing else that comes in,
   * and nothing the application does, moves the heartbeat, and closing stops its timers.
   */
  lemma PongsRestartHeartbeat(opts: Options, b: Birth, steps: seq<Step>, step: Step)
    requires !IsTimerStep(step)
    ensures var s := Life(opts, b, steps);
            BeatsWith(opts, s, Apply(opts, s, step), Pongs(Brought(s, step)))
  {
    LifeInv(opts, b, steps);
    BornOpens(opts, b);
    StepBeats(opts, Life(opts, b, steps), step);
  }

  // ----- timers -----

  /** A ping timer of the session is due, the one it holds on to or one that it overwrote. */
  predicate Pings(s: State, step: Step) {
    || (step.PingTimer? && s.heart.interval == H.Armed(s.heart.now))
    || (step.StrayPingTimer? && s.heart.now in s.heart.strays)
  }

  /** The deadline that the pong to the latest ping has to meet. */
  predicate Awaiting(h: H.State, deadline: int) {
    h.timeout == Some(H.Armed(deadline))
  }

  /** A ping went out, and its pong is due. */
  predicate Pinged(opts: Options, s: State, t: State, step: Step) {
    && t.out.accepted == s.out.accepted + (if s.readyState == OPEN then [Packet(Ping, None)] else [])
    && t.log.events == s.log.events && t.readyState == s.readyState
    && Awaiting(t.heart, s.heart.now + opts.pingTimeout)
    && t.heart.now == s.heart.now && t.heart.lastPong == s.heart.lastPong
    && t.heart.interval == (if step.PingTimer? then H.Idle else s.heart.interval)
    && t.heart.strays == (if step.PingTimer? then s.heart.strays else s.heart.strays - multiset{s.heart.now})
  }

  lemma PingTaken(opts: Options, s: State)
    requires Inv(s) && s.readyState == OPEN
    ensures SendPacket(opts, s, Packet(Ping, None)).out.accepted == s.out.accepted + [Packet(Ping, None)]
  {
    var p := Packet(Ping, None);
    SendPacketIsFlush(opts, s, p);
    PushedKeepsBase(opts, s, p);
    FlushKeeps(opts, Pushed(opts, s, p));
  }

  /** A ping is on its way, if the session still sends. */
  predicate PingOut(s: State, t: State) {
    && t.out.accepted == s.out.accepted + (if s.readyState == OPEN then [Packet(Ping, None)] else [])
    && t.log.events == s.log.events && t.readyState == s.readyState && t.heart == s.heart
  }

  lemma PingSent(opts: Options, s: State)
    requires Inv(s) && s.readyState != OPENING
    ensures PingOut(s, SendPingOrPong(opts, s, Ping))
  {
    PingOrPongIsBuffered(opts, s, Ping);
    SendPingOrPongKeeps(opts, s, Ping);
    SendPingOrPongUntouched(opts, s, Ping);
    if s.readyState == OPEN {
      PingTaken(opts, s);
    }
  }

  lemma SendPingPings(opts: Options, s: State, h: H.State, step: Step)
    requires Inv(s) && s.readyState != OPENING
    requires h == (if step.PingTimer? then s.heart.(interval := H.Idle)
                   else s.heart.(strays := s.heart.strays - multiset{s.heart.now}))
    ensures Pinged(opts, s, SendPing(opts, s.(heart := h)), step)
  {
    HeartField(s, s.(heart := h));
    PingSent(opts, s.(heart := h));
  }

  lemma PingGoes(opts: Options, s: State, step: Step)
    requires Inv(s) && s.readyState != OPENING && (step.PingTimer? || step.StrayPingTimer?)
    ensures if Pings(s, step) then Pinged(opts, s, Apply(opts, s, step), step) else Apply(opts, s, step) == s
  {
    if step.PingTimer? {
      SendPingPings(opts, s, s.heart.(interval := H.Idle), step);
    } else {
      SendPingPings(opts, s, s.heart.(strays := s.heart.strays - multiset{s.heart.now}), step);
    }
  }

  /**
   * In every run a ping timer that is due sends a ping and starts to wait for its pong;
   * before that it does nothing.
   */
  lemma PingGoesOut(opts: Options, b: Birth, steps: seq<Step>, step: Step)
    requires step.PingTimer? || step.StrayPingTimer?
    ensures var s := Life(opts, b, steps);
            if Pings(s, step) then Pinged(opts, s, Apply(opts, s, step), step) else Apply(opts, s, step) == s
  {
    LifeInv(opts, b, steps);
    BornOpens(opts, b);
    PingGoes(opts, Life(opts, b, steps), step);
  }

  /** No armed timer is due before `until`. */
  predicate NothingDueBefore(h: H.State, until: int) {
    && (h.interval.Armed? ==> until <= h.interval.at)
    && (h.timeout.Some? && h.timeout.value.Armed? ==> until <= h.timeout.value.at)
    && forall d | d in h.strays :: until <= d
  }

  /** Time moves on, and nothing else, unless a timer is due before. */
  lemma TimePasses(opts: Options, s: State, until: int)
    requires s.heart.now <= until
    ensures var t := Apply(opts, s, Wait(until));
            && t == s.(heart := s.heart.(now := t.heart.now))
            && t.heart.now == (if NothingDueBefore(s.heart, until) then until else s.heart.now)
  {}

  // ----- over runs -----

  lemma LastStep(opts: Options, b: Birth, steps: seq<Step>)
    requires steps != []
    ensures Life(opts, b, steps) == Apply(opts, Life(opts, b, steps[..|steps| - 1]), steps[|steps| - 1])
  {
    var before, last := steps[..|steps| - 1], steps[|steps| - 1];
    assert steps == before + [last];
    RunConcat(opts, Born(opts, b), before, [last]);
    SessionRate.OneStep(opts, Life(opts, b, before), last);
  }

  /** The latest beat after a step: now, if the step brought one. */
  function BeatAfter(s: State, t: State, beat: int): int {
    if Beats(t.log.events) > Beats(s.log.events) then s.heart.now else beat
  }

  /** When the latest pong was heard, or the session opened. */
  function LatestBeat(opts: Options, b: Birth, steps: seq<Step>): int {
    if steps == [] then b.now
    else
      var before := steps[..|steps| - 1];
      BeatAfter(Life(opts, b, before), Life(opts, b, steps), LatestBeat(opts, b, before))
  }

  /** Which step sent the latest ping. */
  function LatestPing(opts: Options, b: Birth, steps: seq<Step>): Option<nat> {
    if steps == [] then None
    else
      var before := steps[..|steps| - 1];
      if Pings(Life(opts, b, before), steps[|before|]) then Some(|before|) else LatestPing(opts, b, before)
  }

  lemma {:induction false} LatestPingIsStep(opts: Options, b: Birth, steps: seq<Step>)
    ensures LatestPing(opts, b, steps).Some? ==> LatestPing(opts, b, steps).value < |steps|
  {
    if steps != [] {
      LatestPingIsStep(opts, b, steps[..|steps| - 1]);
    }
  }

  /** The timers agree with the latest beat: the session's own ping timer is a whole interval from it. */
  predicate Paced(opts: Options, s: State, beat: int) {
    && s.heart.lastPong == beat
    && (s.readyState != CLOSED && s.heart.interval.Armed? ==> s.heart.interval.at == beat + opts.pingInterval)
  }

  lemma TimerBeats(opts: Options, s: State, step: Step)
    requires Inv(s) && s.readyState != OPENING && IsTimerStep(step)
    ensures var t := Apply(opts, s, step);
            && Beats(t.log.events) == Beats(s.log.events) && t.heart.lastPong == s.heart.lastPong
            && (t.readyState != CLOSED ==> s.readyState != CLOSED)
            && (t.readyState != CLOSED && t.heart.interval.Armed? ==> t.heart.interval == s.heart.interval)
            && (t.readyState != CLOSED && !Pings(s, step) ==> t.heart.timeout == s.heart.timeout)
  {
    TimerStepDeaf(opts, s, step);
    BeatsHeard(s.log.events);
    BeatsHeard(Apply(opts, s, step).log.events);
    match step
    case PingTimer => PingGoes(opts, s, step);
    case StrayPingTimer => PingGoes(opts, s, step);
    case PingTimeoutTimer => OnCloseUntouched(s.(heart := H.FireTimeout(s.heart)), PingTimeout);
    case LimiterTimer =>
    case Wait(_) =>
  }

  lemma StepPaced(opts: Options, s: State, step: Step, beat: int)
    requires Inv(s) && s.readyState != OPENING && Paced(opts, s, beat)
    ensures Paced(opts, Apply(opts, s, step), BeatAfter(s, Apply(opts, s, step), beat))
  {
    if IsTimerStep(step) {
      TimerBeats(opts, s, step);
    } else {
      StepBeats(opts, s, step);
    }
  }

  lemma OpenPacketKeepsHeart(opts: Options, b: Birth)
    ensures SendPacket(opts, Fresh(opts, b.webSocket, b.room, b.now).(readyState := OPEN), OpenPacket(b)).heart ==
            H.Start(b.now)
  {
    var s := Fresh(opts, b.webSocket, b.room, b.now).(readyState := OPEN);
    FreshInv(opts, b);
    SendUntouched(opts, s, OpenPacket(b));
    SendPacketKeeps(opts, s, OpenPacket(b));
  }

  /** A session that has just opened pings after one interval. */
  lemma BornHeart(opts: Options, b: Birth)
    ensures Born(opts, b).heart == H.State(b.now, H.Armed(b.now + opts.pingInterval), multiset{}, None, b.now)
  {
    OpenPacketKeepsHeart(opts, b);
  }

  lemma LifeRuns(opts: Options, b: Birth, steps: seq<Step>)
    ensures Inv(Life(opts, b, steps)) && Life(opts, b, steps).readyState != OPENING
  {
    LifeInv(opts, b, steps);
    BornOpens(opts, b);
  }

  lemma LastStepPaced(opts: Options, b: Birth, before: seq<Step>, last: Step, beat: int)
    requires Paced(opts, Life(opts, b, before), beat)
    ensures var s := Life(opts, b, before); Paced(opts, Apply(opts, s, last), BeatAfter(s, Apply(opts, s, last), beat))
  {
    LifeRuns(opts, b, before);
    StepPaced(opts, Life(opts, b, before), last, beat);
  }

  lemma {:induction false} LifePaced(opts: Options, b: Birth, steps: seq<Step>)
    ensures Paced(opts, Life(opts, b, steps), LatestBeat(opts, b, steps))
  {
    if steps == [] {
      BornHeart(opts, b);
    } else {
      var before := steps[..|steps| - 1];
      LifePaced(opts, b, before);
      LastStep(opts, b, steps);
      LastStepPaced(opts, b, before, steps[|before|], LatestBeat(opts, b, before));
    }
  }

  /**
   * In every run the session's ping timer, while it is armed, is due a whole interval after
   * the latest pong that was heard, or after the start: pings come neither sooner nor later.
   */
  lemma PingsKeepPace(opts: Options, b: Birth, steps: seq<Step>)
    ensures var h, beat := Life(opts, b, steps).heart, LatestBeat(opts, b, steps);
            && h.lastPong == beat
            && (Life(opts, b, steps).readyState != CLOSED && h.interval.Armed? ==>
                  h.interval == H.Armed(beat + opts.pingInterval))
  {
    LifePaced(opts, b, steps);
  }

  /** A deadline for a pong is that of the latest ping, and no pong was heard since. */
  predicate Owes(opts: Options, b: Birth, steps: seq<Step>, deadline: int) {
    var ping := LatestPing(opts, b, steps);
    && ping.Some? && ping.value < |steps|
    && Life(opts, b, steps[..ping.value]).heart.now + opts.pingTimeout == deadline
    && Beats(Life(opts, b, steps[..ping.value + 1]).log.events) == Beats(Life(opts, b, steps).log.events)
  }

  /** From s to t the deadline was left alone and no pong came. */
  predicate StillAwaiting(s: State, t: State, deadline: int) {
    && s.readyState != CLOSED && Awaiting(s.heart, deadline)
    && Beats(t.log.events) == Beats(s.log.events)
  }

  /** A live session that has a deadline to meet. */
  predicate Waiting(t: State, deadline: int) {
    t.readyState != CLOSED && Awaiting(t.heart, deadline)
  }

  lemma StepOwes(opts: Options, s: State, step: Step, deadline: int)
    requires Inv(s) && s.readyState != OPENING && Waiting(Apply(opts, s, step), deadline)
    ensures if Pings(s, step) then deadline == s.heart.now + opts.pingTimeout
            else StillAwaiting(s, Apply(opts, s, step), deadline)
  {
    if IsTimerStep(step) {
      TimerBeats(opts, s, step);
      if Pings(s, step) {
        PingGoes(opts, s, step);
      }
    } else {
      StepBeats(opts, s, step);
    }
  }

  lemma LastStepOwes(opts: Options, b: Birth, steps: seq<Step>, deadline: int)
    requires steps != [] && Waiting(Life(opts, b, steps), deadline)
    ensures var before, last := Life(opts, b, steps[..|steps| - 1]), steps[|steps| - 1];
            if Pings(before, last) then deadline == before.heart.now + opts.pingTimeout
            else StillAwaiting(before, Life(opts, b, steps), deadline)
  {
    var before := steps[..|steps| - 1];
    LastStep(opts, b, steps);
    LifeRuns(opts, b, before);
    StepOwes(opts, Life(opts, b, before), steps[|before|], deadline);
  }

  lemma OwesNow(opts: Options, b: Birth, steps: seq<Step>, deadline: int)
    requires steps != []
    requires var before := Life(opts, b, steps[..|steps| - 1]);
             Pings(before, steps[|steps| - 1]) && deadline == before.heart.now + opts.pingTimeout
    ensures Owes(opts, b, steps, deadline)
  {
    assert steps[..|steps| - 1 + 1] == steps;
  }

  lemma OwesStill(opts: Options, b: Birth, steps: seq<Step>, deadline: int)
    requires steps != []
    requires var before := steps[..|steps| - 1];
             && Owes(opts, b, before, deadline) && !Pings(Life(opts, b, before), steps[|before|])
             && StillAwaiting(Life(opts, b, before), Life(opts, b, steps), deadline)
    ensures Owes(opts, b, steps, deadline)
  {
    var before := steps[..|steps| - 1];
    var k := LatestPing(opts, b, before).value;
    assert steps[..k] == before[..k] && steps[..k + 1] == before[..k + 1];
  }

  lemma {:induction false} LifeOwes(opts: Options, b: Birth, steps: seq<Step>, deadline: int)
    requires Waiting(Life(opts, b, steps), deadline)
    ensures Owes(opts, b, steps, deadline)
  {
    if steps == [] {
      BornHeart(opts, b);
    } else {
      var before := steps[..|steps| - 1];
      LastStepOwes(opts, b, steps, deadline);
      if Pings(Life(opts, b, before), steps[|before|]) {
        OwesNow(opts, b, steps, deadline);
      } else {
        LifeOwes(opts, b, before, deadline);
        OwesStill(opts, b, steps, deadline);
      }
    }
  }

  /**
   * In every run the ping timeout closes a session only pingTimeout after the latest ping
   * went out, and no pong was heard since.
   */
  lemma PingTimeoutIsDeserved(opts: Options, b: Birth, steps: seq<Step>)
    requires var s := Life(opts, b, steps);
             s.readyState != CLOSED && Apply(opts, s, PingTimeoutTimer).readyState == CLOSED
    ensures Owes(opts, b, steps, Life(opts, b, steps).heart.now)
  {
    TimeoutWasDue(opts, Life(opts, b, steps));
    LifeOwes(opts, b, steps, Life(opts, b, steps).heart.now);
  }

  lemma TimeoutWasDue(opts: Options, s: State)
    requires s.readyState != CLOSED && Apply(opts, s, PingTimeoutTimer).readyState == CLOSED
    ensures Awaiting(s.heart, s.heart.now)
  {
    assert Apply(opts, s, PingTimeoutTimer) == PingTimesOut(s);
  }
}
