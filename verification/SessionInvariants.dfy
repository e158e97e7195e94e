/** What every step of a session keeps, and how a step may change it. */
module SessionInvariants {
  import opened Packets
  import opened Transport
  import opened Session
  import Parser
  import H = Heartbeat
  import P = PollingTransport
  import W = WebSocketTransport

  // ----- what went out -----

  /** The packets of the polling responses, in order. */
  function Answers(settled: seq<P.Settlement>): seq<Packet> {
    if settled == [] then []
    else
      var last := settled[|settled| - 1];
      Answers(settled[..|settled| - 1]) + (if last.Answered? then last.packets else [])
  }

  function Polled(polling: Option<P.State>): seq<Packet> {
    if polling.Some? then SessionPackets(Answers(polling.value.settled)) else []
  }

  function Framed(ws: Option<W.State>): seq<Packet> {
    if ws.Some? then SessionPackets(ws.value.frames) else []
  }

  /** The session packets on the wire: polling responses, then WebSocket frames. */
  function Delivered(s: State): seq<Packet> {
    Polled(s.polling) + Framed(s.ws)
  }

  // ----- what may go out -----

  /** A packet with a faithful wire form; the control packets used are ones that survive it unchanged. */
  predicate OnWire(p: Packet) {
    Parser.Encodable(p) && (IsControl(p) ==> Parser.Separable(p) && Parser.Normalize(p) == p)
  }

  predicate AllOnWire(ps: seq<Packet>) {
    ps == [] || (AllOnWire(ps[..|ps| - 1]) && OnWire(ps[|ps| - 1]))
  }

  /** Packets of the session itself. */
  predicate Outgoing(ps: seq<Packet>) {
    AllSession(ps) && AllOnWire(ps)
  }

  /** Every response holds something, and only packets that may go out. */
  predicate GoodAnswers(settled: seq<P.Settlement>) {
    settled == [] ||
    var last := settled[|settled| - 1];
    GoodAnswers(settled[..|settled| - 1]) && (last.Answered? ==> last.packets != [] && AllOnWire(last.packets))
  }

  lemma {:induction false} AllOnWireConcat(ps: seq<Packet>, qs: seq<Packet>)
    ensures AllOnWire(ps + qs) <==> AllOnWire(ps) && AllOnWire(qs)
  {
    if qs == [] {
      assert ps + qs == ps;
    } else {
      assert (ps + qs)[..|ps + qs| - 1] == ps + qs[..|qs| - 1];
      AllOnWireConcat(ps, qs[..|qs| - 1]);
    }
  }

  lemma AllOnWireSingle(p: Packet)
    ensures AllOnWire([p]) <==> OnWire(p)
  {
    assert [p][..0] == [];
  }

  lemma OutgoingConcat(ps: seq<Packet>, qs: seq<Packet>)
    ensures Outgoing(ps + qs) <==> Outgoing(ps) && Outgoing(qs)
  {
    AllSessionConcat(ps, qs);
    AllOnWireConcat(ps, qs);
  }

  lemma OutgoingSingle(p: Packet)
    ensures Outgoing([p]) <==> !IsControl(p) && OnWire(p)
  {
    AllSessionSingle(p);
    AllOnWireSingle(p);
  }

  // ----- the invariant, by concern -----

  /** At most one upgrade, from polling to WebSocket; handlers are on until the session is closed. */
  predicate Shape(s: State) {
    && (s.polling.Some? || s.ws.Some?)
    && (s.upgradeState == Upgraded <==> s.polling.Some? && s.ws.Some?)
    && (s.upgradeState == Upgrading ==> s.ws.None?)
    && (s.probe.transport.Some? ==> s.upgradeState == Upgrading)
    && (s.probe.timeout || s.probe.noopTimer ==> s.probe.transport.Some?)
    && (s.out.closeOnDrain ==> s.readyState == CLOSING || s.readyState == CLOSED)
    && (s.attached <==> s.readyState != CLOSED)
  }

  /** A WebSocket transport that is not OPEN has let go of its Bun socket. */
  predicate WebSocketSound(w: W.State) {
    w.link != W.Absent && (w.readyState != OPEN ==> w.link != W.Connected) && AllOnWire(w.frames)
  }

  ghost predicate PollingSound(p: P.State) {
    P.Inv(p) && GoodAnswers(p.settled)
  }

  /** Each transport is in order; a polling transport that was replaced is closed for good. */
  ghost predicate Sound(polling: Option<P.State>, ws: Option<W.State>) {
    && (match polling
        case None => true
        case Some(p) => PollingSound(p) && (ws.Some? ==> p.readyState == CLOSED && !p.writable))
    && (match ws
        case None => true
        case Some(w) => WebSocketSound(w))
  }

  /** Neither transport can send any more. */
  predicate Dead(polling: Option<P.State>, ws: Option<W.State>) {
    && (match polling
        case None => true
        case Some(p) => p.readyState == CLOSED && !p.writable)
    && (match ws
        case None => true
        case Some(w) => w.link != W.Connected)
  }

  /** A probing transport has sent no session packet. */
  predicate CandidateSound(candidate: Option<W.State>) {
    match candidate
    case None => true
    case Some(w) => WebSocketSound(w) && SessionPackets(w.frames) == []
  }

  ghost predicate Links(s: State) {
    && Sound(s.polling, s.ws)
    && (s.readyState == CLOSED ==> Dead(s.polling, s.ws))
    && CandidateSound(s.probe.transport)
  }

  /** The polling transport in use is open. */
  predicate PollingOpen(s: State) {
    s.polling.Some? && s.ws.None? && s.readyState != CLOSED ==> s.polling.value.readyState == OPEN
  }

  /** Every accepted packet is on the wire, lost with a dead socket, or still buffered. */
  predicate Ledger(out: Outbox, delivered: seq<Packet>) {
    out.accepted == delivered + out.lost + out.buffer && Outgoing(out.accepted)
  }

  /** Conservation, with losses only on a Bun socket that is no longer open. */
  predicate Conserved(s: State) {
    && Ledger(s.out, Delivered(s))
    && (s.out.lost != [] ==> s.ws.Some? && s.ws.value.link != W.Connected)
  }

  /** Number of "close" events. */
  function Closings(es: seq<Event>): nat {
    if es == [] then 0 else Closings(es[..|es| - 1]) + (if es[|es| - 1].Closed? then 1 else 0)
  }

  /** Number of "upgrade" events. */
  function Upgrades(es: seq<Event>): nat {
    if es == [] then 0 else Upgrades(es[..|es| - 1]) + (if es[|es| - 1] == UpgradeDone then 1 else 0)
  }

  /** After "close" nothing but the probing of an orphaned candidate is reported. */
  predicate ClosedIsFinal(es: seq<Event>) {
    es == [] ||
    (ClosedIsFinal(es[..|es| - 1]) && (Closings(es[..|es| - 1]) == 0 || es[|es| - 1] == UpgradeStarted))
  }

  /** The session was closed by its owner. */
  predicate ForciblyClosed(es: seq<Event>) {
    es != [] && (ForciblyClosed(es[..|es| - 1]) || es[|es| - 1] == Closed(ForcedClose))
  }

  predicate Report(es: seq<Event>, closed: bool, upgraded: bool, emptied: bool) {
    && Closings(es) == (if closed then 1 else 0)
    && Upgrades(es) == (if upgraded then 1 else 0)
    && ClosedIsFinal(es)
    && (ForciblyClosed(es) ==> emptied && closed)
  }

  predicate Reported(s: State) {
    Report(s.log.events, s.readyState == CLOSED, s.upgradeState == Upgraded, s.out.buffer == [])
  }

  /** A writable transport leaves nothing in the buffer; a closing session waits for its backlog. */
  predicate Settled(s: State) {
    && (Writable(s) && s.readyState != CLOSED ==> s.out.buffer == [])
    && (s.readyState == CLOSING ==> s.out.closeOnDrain && s.out.buffer != [])
  }

  ghost predicate Base(s: State) {
    Shape(s) && Links(s) && Conserved(s) && Reported(s)
  }

  ghost predicate Inv(s: State) {
    Base(s) && PollingOpen(s) && Settled(s)
  }

  // ----- how a step moves -----

  function Rank(r: ReadyState): nat {
    match r
    case OPENING => 0
    case OPEN => 1
    case CLOSING => 2
    case CLOSED => 3
  }

  function UpgradeRank(u: UpgradeState): nat {
    match u
    case NotUpgraded => 0
    case Upgrading => 1
    case Upgraded => 2
  }

  /** The probe failed: the session is marked as upgrading, with nothing left that could upgrade it. */
  predicate Stuck(s: State) {
    s.upgradeState == Upgrading && s.probe.transport.None?
  }

  /**
   * Life cycles move forward, histories only grow, a dead socket stays dead, a session
   * that closes takes on nothing more, and a failed probe is never retried.
   */
  predicate Progress(s: State, t: State) {
    && Rank(s.readyState) <= Rank(t.readyState)
    && (!Accepting(s) ==> t.out.accepted == s.out.accepted)
    && (Stuck(s) ==> Stuck(t))
    && UpgradeRank(s.upgradeState) <= UpgradeRank(t.upgradeState)
    && (s.ws.Some? ==> t.ws.Some?)
    && (s.polling.Some? <==> t.polling.Some?)
    && (s.ws.None? && t.ws.Some? ==> s.polling.Some? && t.upgradeState == Upgraded)
    && (s.ws.Some? && s.ws.value.link != W.Connected ==> t.ws.value.link != W.Connected)
    && s.out.accepted <= t.out.accepted
    && Delivered(s) <= Delivered(t)
    && s.out.lost <= t.out.lost
    && s.log.events <= t.log.events
  }

  lemma ProgressTrans(s: State, t: State, u: State)
    requires Progress(s, t) && Progress(t, u)
    ensures Progress(s, u)
  {}

  // ----- histories -----

  lemma AnswersAppend(settled: seq<P.Settlement>, last: P.Settlement)
    ensures GoodAnswers(settled + [last]) <==>
            GoodAnswers(settled) && (last.Answered? ==> last.packets != [] && AllOnWire(last.packets))
    ensures Answers(settled + [last]) == Answers(settled) + (if last.Answered? then last.packets else [])
  {
    assert (settled + [last])[..|settled|] == settled;
  }

  lemma PollingSend(p: P.State, ps: seq<Packet>)
    requires PollingSound(p) && ps != [] && AllOnWire(ps)
    ensures PollingSound(P.Send(p, ps))
    ensures SessionPackets(Answers(P.Send(p, ps).settled)) ==
            SessionPackets(Answers(p.settled)) + (if p.pending.Some? then SessionPackets(ps) else [])
  {
    P.ApplyKeepsInv(p, P.OpSend(ps));
    if p.pending.Some? {
      AnswersAppend(p.settled, P.Answered(p.pending.value, ps));
      SessionPacketsConcat(Answers(p.settled), ps);
    }
  }

  lemma FramesAppend(w: W.State, opts: Options, ps: seq<Packet>)
    ensures var w' := W.Send(opts, w, ps);
            && w'.frames == (if W.CanSend(w) then w.frames + ps else w.frames)
            && w'.link == w.link && w'.readyState == w.readyState
            && (!w.writable ==> !w'.writable)
  {}

  lemma WebSocketSend(opts: Options, w: W.State, ps: seq<Packet>)
    requires AllOnWire(ps)
    ensures WebSocketSound(w) ==> WebSocketSound(W.Send(opts, w, ps))
    ensures SessionPackets(W.Send(opts, w, ps).frames) ==
            SessionPackets(w.frames) + (if W.CanSend(w) then SessionPackets(ps) else [])
  {
    FramesAppend(w, opts, ps);
    SessionPacketsConcat(w.frames, ps);
    AllOnWireConcat(w.frames, ps);
  }

  lemma OneControl(p: Packet)
    requires IsControl(p)
    ensures SessionPackets([p]) == []
  {
    assert [p][1..] == [];
  }

  lemma PollingDoClose(p: P.State)
    requires PollingSound(p)
    ensures PollingSound(P.DoClose(p)) && P.DoClose(p).readyState == CLOSED && !P.DoClose(p).writable
    ensures SessionPackets(Answers(P.DoClose(p).settled)) == SessionPackets(Answers(p.settled))
  {
    P.ApplyKeepsInv(p, P.OpDoClose);
    var last := Packet(if p.readyState == CLOSING then Close else Noop, None);
    OneControl(last);
    AllOnWireSingle(last);
    PollingSend(p, [last]);
  }

  lemma PollingShut(p: P.State)
    requires PollingSound(p) && p.readyState != CLOSING && (p.readyState == CLOSED ==> !p.writable)
    ensures PollingSound(P.Shut(p)) && P.Shut(p).readyState == CLOSED && !P.Shut(p).writable
    ensures SessionPackets(Answers(P.Shut(p).settled)) == SessionPackets(Answers(p.settled))
  {
    if p.readyState != CLOSED {
      var p1 := p.(readyState := CLOSING);
      PollingDoClose(p1);
    }
  }

  /** The other polling operations put no session packet on the wire. */
  lemma PollingQuiet(p: P.State, op: P.Op)
    requires PollingSound(p) && (op.OpArrive? || op.OpExpire? || op.OpAbort?)
    ensures PollingSound(P.Apply(p, op)) && P.Apply(p, op).readyState == p.readyState
    ensures Answers(P.Apply(p, op).settled) == Answers(p.settled)
  {
    P.ApplyKeepsInv(p, op);
    var q := P.Apply(p, op);
    if |q.settled| > |p.settled| {
      AnswersAppend(p.settled, q.settled[|p.settled|]);
      assert q.settled == p.settled + [q.settled[|p.settled|]];
    } else {
      assert q.settled == p.settled;
    }
  }

  lemma EmitCounts(es: seq<Event>, e: Event)
    ensures Closings(es + [e]) == Closings(es) + (if e.Closed? then 1 else 0)
    ensures Upgrades(es + [e]) == Upgrades(es) + (if e == UpgradeDone then 1 else 0)
    ensures ClosedIsFinal(es + [e]) <==> ClosedIsFinal(es) && (Closings(es) == 0 || e == UpgradeStarted)
    ensures ForciblyClosed(es + [e]) <==> ForciblyClosed(es) || e == Closed(ForcedClose)
  {
    assert (es + [e])[..|es|] == es;
  }

  /** Reporting anything but "close" and "upgrade" on a live session. */
  lemma EmitKeepsReported(s: State, e: Event)
    requires Reported(s) && !e.Closed? && e != UpgradeDone
    requires s.readyState != CLOSED || e == UpgradeStarted
    ensures Reported(Emit(s, e))
  {
    EmitCounts(s.log.events, e);
  }

  // ----- closing -----

  /** The transports are closed, and nothing of the session went out in closing them. */
  ghost predicate TransportsClosed(polling: Option<P.State>, ws: Option<W.State>,
                                   polling': Option<P.State>, ws': Option<W.State>) {
    && Polled(polling') == Polled(polling) && Framed(ws') == Framed(ws)
    && (match polling'
        case None => polling.None?
        case Some(p) => polling.Some? && PollingSound(p) && p.readyState == CLOSED && !p.writable)
    && (match ws'
        case None => ws.None?
        case Some(w) => ws.Some? && WebSocketSound(w) && w.link != W.Connected)
  }

  /** A polling transport can be closed, or is. */
  ghost predicate CanShut(p: P.State) {
    PollingSound(p) && p.readyState != CLOSING && (p.readyState == CLOSED ==> !p.writable)
  }

  /** The transports of a session that is about to close. */
  ghost predicate TransportsReady(polling: Option<P.State>, ws: Option<W.State>) {
    && (match polling
        case None => ws.Some?
        case Some(p) => CanShut(p) && (ws.Some? ==> p.readyState == CLOSED))
    && (match ws
        case None => true
        case Some(w) => WebSocketSound(w))
  }

  /** A live session about to close: everything but the state of the bound polling transport is in order. */
  ghost predicate Closable(s: State) {
    Base(s) && s.readyState != CLOSED && TransportsReady(s.polling, s.ws)
  }

  lemma CloseTransportCloses(s: State)
    requires TransportsReady(s.polling, s.ws)
    ensures TransportsClosed(s.polling, s.ws, CloseTransport(s).polling, CloseTransport(s).ws)
    ensures TransportsReady(CloseTransport(s).polling, CloseTransport(s).ws)
  {
    if s.ws.None? {
      PollingShut(s.polling.value);
    }
  }

  /** A live session with its transports closed and "close" reported is closed in good order. */
  lemma ClosedInOrder(s: State, t: State, reason: CloseReason)
    requires Base(s) && s.readyState != CLOSED
    requires reason == ForcedClose ==> s.out.buffer == []
    requires TransportsClosed(s.polling, s.ws, t.polling, t.ws)
    requires t == s.(readyState := CLOSED, attached := false, heart := t.heart,
                     polling := t.polling, ws := t.ws, log := s.log.(events := s.log.events + [Closed(reason)]))
    ensures Inv(t) && Progress(s, t)
  {
    EmitCounts(s.log.events, Closed(reason));
  }

  lemma OnCloseTransports(s: State, reason: CloseReason)
    requires TransportsReady(s.polling, s.ws) && s.readyState != CLOSED
    ensures TransportsClosed(s.polling, s.ws, OnClose(s, reason).polling, OnClose(s, reason).ws)
  {
    CloseTransportCloses(s.(readyState := CLOSED, heart := H.Cancel(s.heart)));
  }

  lemma OnCloseKeeps(s: State, reason: CloseReason)
    requires Closable(s)
    requires reason == ForcedClose ==> s.out.buffer == []
    ensures var t := OnClose(s, reason);
            && Inv(t) && Progress(s, t) && t.readyState == CLOSED
            && t.log.events == s.log.events + [Closed(reason)]
            && t.out.accepted == s.out.accepted && t.out.lost == s.out.lost
  {
    OnCloseTransports(s, reason);
    ClosedInOrder(s, OnClose(s, reason), reason);
  }

  lemma FinishCloseTransports(s: State)
    requires TransportsReady(s.polling, s.ws) && s.readyState != CLOSED
    ensures TransportsClosed(s.polling, s.ws, FinishClose(s).polling, FinishClose(s).ws)
  {
    var s1 := CloseTransport(s);
    CloseTransportCloses(s);
    OnCloseTransports(s1, ForcedClose);
  }

  lemma FinishCloseKeeps(s: State)
    requires Closable(s) && s.out.buffer == []
    ensures var t := FinishClose(s);
            && Inv(t) && Progress(s, t) && t.readyState == CLOSED
            && t.log.events == s.log.events + [Closed(ForcedClose)]
            && t.out.accepted == s.out.accepted && t.out.lost == s.out.lost
  {
    FinishCloseTransports(s);
    ClosedInOrder(s, FinishClose(s), ForcedClose);
  }

  // ----- sending -----

  /** The packets ps are on the wire, or lost with a dead socket. */
  ghost predicate Handed(s: State, t: State, ps: seq<Packet>) {
    && Sound(t.polling, t.ws)
    && (t.polling.Some? <==> s.polling.Some?) && (t.ws.Some? <==> s.ws.Some?)
    && Delivered(t) + t.out.lost == Delivered(s) + s.out.lost + ps
    && Delivered(s) <= Delivered(t) && s.out.lost <= t.out.lost
    && (match s.ws
        case None =>
          && t.out.lost == s.out.lost
          && (t.polling.Some? ==>
                t.polling.value.readyState == s.polling.value.readyState && !t.polling.value.writable)
        case Some(w) =>
          && t.polling == s.polling && t.ws.value.link == w.link
          && (w.link == W.Connected ==> t.out.lost == s.out.lost))
  }

  /** Packets end up behind what was delivered, or behind what was lost. */
  lemma Carried(polled: seq<Packet>, framed: seq<Packet>, polled': seq<Packet>, framed': seq<Packet>,
                lost: seq<Packet>, lost': seq<Packet>, ps: seq<Packet>)
    requires || (polled' == polled && framed' == framed + ps && lost == lost' == [])
             || (polled' == polled && framed' == framed && lost' == lost + ps)
             || (polled' == polled + ps && framed == framed' == lost == lost' == [])
    ensures polled' + framed' + lost' == polled + framed + lost + ps
    ensures polled + framed <= polled' + framed' && lost <= lost'
  {
    assert polled + (framed + ps) == polled + framed + ps;
  }

  lemma SendOnWebSocket(opts: Options, s: State, ps: seq<Packet>)
    requires Sound(s.polling, s.ws) && s.ws.Some? && s.ws.value.writable
    requires s.out.lost != [] ==> s.ws.value.link != W.Connected
    requires Outgoing(ps)
    ensures Handed(s, TransportSend(opts, s, ps), ps)
  {
    var t := TransportSend(opts, s, ps);
    WebSocketSend(opts, s.ws.value, ps);
    FramesAppend(s.ws.value, opts, ps);
    Carried(Polled(s.polling), Framed(s.ws), Polled(t.polling), Framed(t.ws), s.out.lost, t.out.lost, ps);
  }

  lemma SendOnPolling(opts: Options, s: State, ps: seq<Packet>)
    requires Sound(s.polling, s.ws) && s.ws.None? && s.polling.Some? && s.polling.value.writable
    requires s.out.lost == [] && Outgoing(ps) && ps != []
    ensures Handed(s, TransportSend(opts, s, ps), ps)
  {
    var t := TransportSend(opts, s, ps);
    PollingSend(s.polling.value, ps);
    Carried(Polled(s.polling), Framed(s.ws), Polled(t.polling), Framed(t.ws), s.out.lost, t.out.lost, ps);
  }

  lemma TransportSendHands(opts: Options, s: State, ps: seq<Packet>)
    requires Sound(s.polling, s.ws) && Writable(s) && Outgoing(ps) && ps != []
    requires s.out.lost != [] ==> s.ws.Some? && s.ws.value.link != W.Connected
    ensures Handed(s, TransportSend(opts, s, ps), ps)
  {
    if s.ws.Some? {
      SendOnWebSocket(opts, s, ps);
    } else {
      SendOnPolling(opts, s, ps);
    }
  }

  /** What is left in the buffer is part of what was accepted. */
  lemma BufferIsSession(s: State)
    requires Conserved(s)
    ensures Outgoing(s.out.buffer)
  {
    OutgoingConcat(Delivered(s) + s.out.lost, s.out.buffer);
  }

  lemma SendBufferHands(opts: Options, s: State)
    requires Sound(s.polling, s.ws) && Writable(s) && Conserved(s) && s.out.buffer != []
    ensures Handed(s, SendBuffer(opts, s), s.out.buffer)
  {
    BufferIsSession(s);
    var s1 := Note(s, Flushed(s.out.buffer)).(out := s.out.(buffer := []));
    TransportSendHands(opts, s1, s.out.buffer);
    var t := TransportSend(opts, s1, s.out.buffer);
    assert t.polling == SendBuffer(opts, s).polling && t.ws == SendBuffer(opts, s).ws;
  }

  lemma SendBufferKeeps(opts: Options, s: State)
    requires Base(s) && PollingOpen(s) && s.readyState != CLOSED && Writable(s) && s.out.buffer != []
    ensures var t := SendBuffer(opts, s);
            Base(t) && PollingOpen(t) && Progress(s, t) && Handed(s, t, s.out.buffer)
  {
    SendBufferHands(opts, s);
  }

  /** What a flush changes: it may complete a close that waited for the backlog. */
  predicate FlushResult(s: State, t: State) {
    && t.out.accepted == s.out.accepted
    && (s.ws.None? || s.ws.value.link == W.Connected ==> t.out.lost == s.out.lost)
    && (t.readyState != CLOSED && s.ws.Some? ==> t.ws.Some? && t.ws.value.link == s.ws.value.link)
    && (if s.readyState == CLOSING && Writable(s)
        then t.readyState == CLOSED && t.log.events == s.log.events + [Closed(ForcedClose)]
        else t.readyState == s.readyState && t.log.events == s.log.events)
  }

  lemma FlushThenClose(opts: Options, s: State)
    requires Base(s) && PollingOpen(s)
    requires s.readyState == CLOSING && s.out.closeOnDrain && s.out.buffer != [] && Writable(s)
    ensures Inv(Flush(opts, s)) && Progress(s, Flush(opts, s)) && FlushResult(s, Flush(opts, s))
  {
    SendBufferKeeps(opts, s);
    var s1 := SendBuffer(opts, s);
    var s2 := s1.(out := s1.out.(closeOnDrain := false));
    assert TransportsReady(s2.polling, s2.ws);
    FinishCloseKeeps(s2);
    assert Flush(opts, s) == FinishClose(s2);
    ProgressTrans(s, s2, FinishClose(s2));
  }

  lemma FlushAndStayOpen(opts: Options, s: State)
    requires Base(s) && PollingOpen(s)
    requires (s.readyState == OPENING || s.readyState == OPEN) && s.out.buffer != [] && Writable(s)
    ensures Inv(Flush(opts, s)) && Progress(s, Flush(opts, s)) && FlushResult(s, Flush(opts, s))
  {
    SendBufferKeeps(opts, s);
    assert Flush(opts, s) == SendBuffer(opts, s);
  }

  lemma FlushKeeps(opts: Options, s: State)
    requires Base(s) && PollingOpen(s)
    requires s.readyState == CLOSING ==> s.out.closeOnDrain && s.out.buffer != []
    ensures Inv(Flush(opts, s)) && Progress(s, Flush(opts, s)) && FlushResult(s, Flush(opts, s))
  {
    if s.readyState == CLOSED || !Writable(s) || s.out.buffer == [] {
      assert Flush(opts, s) == s;
    } else if s.readyState == CLOSING {
      FlushThenClose(opts, s);
    } else {
      FlushAndStayOpen(opts, s);
    }
  }
}
