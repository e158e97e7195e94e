/**
 * The socket object. Every method carries out in place what a function of the state
 * machine computes: the ghost field `state` is the abstract value, and `Valid` ties
 * the fields to it.
 */
module Socket {
  import opened Packets
  import opened Transport
  import S = Session
  import Parser
  import H = Heartbeat
  import L = RateLimiting
  import P = PollingTransport
  import W = WebSocketTransport

  const ENCODED_PING := Text("2")
  const ENCODED_PONG := Text("3")

  // The steps, by where they come from.

  predicate IsFrame(step: S.Step) {
    step.FrameIn? || step.WsClose? || step.WsDrain? || step.ProbeFrameIn? || step.ProbeClose? || step.ProbeDrain?
  }

  predicate IsCall(step: S.Step) {
    step.DoWrite? || step.DoBroadcast? || step.DoClose? || step.EnablePacketCreate?
  }

  predicate IsPing(step: S.Step) {
    step.PingTimer? || step.StrayPingTimer?
  }

  predicate IsTick(step: S.Step) {
    step.UpgradeTimeout? || step.NoopTimer? || step.LimiterTimer? || step.Wait?
  }

  class Socket {
    const opts: Options
    ghost var state: S.State
    ghost var Repr: set<object>

    var readyState: ReadyState
    var upgradeState: S.UpgradeState

    // The bound transport is wsTransport when there is one, else polling.
    var polling: P.Polling?
    var wsTransport: W.WS?
    var attached: bool

    // The transport that is probing, and the timers of the upgrade.
    var candidate: W.WS?
    var upgradeTimeout: bool
    var fastUpgradeTimer: bool
    var strayUpgradeTimers: nat

    var writeBuffer: seq<Packet>
    var closeOnDrain: bool

    // The heartbeat, on an integer clock.
    var now: int
    var pingIntervalTimer: H.Timer
    var strayPingTimers: multiset<int>
    var pingTimeoutTimer: Option<H.Timer>

    var hasPacketCreateListener: bool
    var rateLimiter: L.RateLimiter?
    var messagesSent: nat
    var bytesSent: nat
    var messagesReceived: nat
    var bytesReceived: nat

    // What listeners were told.
    var events: seq<S.Event>
    var trace: seq<S.Trace>

    ghost predicate Phase()
      reads this
    {
      state.readyState == readyState && state.upgradeState == upgradeState && state.attached == attached
    }

    ghost predicate ProbeTimers()
      reads this
    {
      && state.probe.timeout == upgradeTimeout && state.probe.noopTimer == fastUpgradeTimer
      && state.probe.strayNoopTimers == strayUpgradeTimers
    }

    ghost predicate Buffers()
      reads this
    {
      && state.out.buffer == writeBuffer && state.out.closeOnDrain == closeOnDrain
      && state.log == S.Log(events, trace)
    }

    ghost predicate Timers()
      reads this
    {
      && state.heart.now == now && state.heart.interval == pingIntervalTimer
      && state.heart.strays == strayPingTimers && state.heart.timeout == pingTimeoutTimer
    }

    ghost predicate Counters()
      reads this
    {
      && state.meter.packetCreate == hasPacketCreateListener
      && state.meter.messagesSent == messagesSent && state.meter.bytesSent == bytesSent
      && state.meter.messagesReceived == messagesReceived && state.meter.bytesReceived == bytesReceived
    }

    ghost predicate HasPolling()
      reads this, polling
    {
      if polling == null then state.polling == None
      else polling in Repr && polling.Valid() && state.polling == Some(polling.Abs())
    }

    ghost predicate HasWebSocket()
      reads this, wsTransport
    {
      if wsTransport == null then state.ws == None
      else wsTransport in Repr && wsTransport.Valid() && wsTransport.opts == opts && state.ws == Some(wsTransport.Abs())
    }

    ghost predicate HasCandidate()
      reads this, candidate
    {
      if candidate == null then state.probe.transport == None
      else
        && candidate in Repr && candidate.Valid() && candidate.opts == opts && candidate != wsTransport
        && state.probe.transport == Some(candidate.Abs())
    }

    ghost predicate HasLimiter()
      reads this, rateLimiter
    {
      if rateLimiter == null then state.meter.limiter == None
      else rateLimiter in Repr && state.meter.limiter == Some(rateLimiter.Abs())
    }

    /** The objects a socket is made of. */
    ghost predicate Owned()
      reads this
    {
      && this in Repr && (polling != null ==> polling in Repr) && (wsTransport != null ==> wsTransport in Repr)
      && (candidate != null ==> candidate in Repr) && (rateLimiter != null ==> rateLimiter in Repr)
    }

    ghost predicate Valid()
      reads this, Repr
    {
      && Owned() && Phase() && ProbeTimers() && Buffers() && Timers() && Counters()
      && HasPolling() && HasWebSocket() && HasCandidate() && HasLimiter()
    }

    // ----- telling listeners -----

    method EmitReserved(e: S.Event)
      requires Valid()
      modifies this`events, this`state
      ensures Valid() && state == S.Emit(old(state), e)
    {
      events := events + [e];
      state := S.Emit(state, e);
    }

    method ShowPacket(t: S.Trace)
      requires Valid()
      modifies this`trace, this`state
      ensures Valid() && state == S.Note(old(state), t)
    {
      trace := trace + [t];
      state := S.Note(state, t);
    }

    // ----- closing -----

    method SetAttached(on: bool)
      requires Valid()
      modifies this`attached, this`state
      ensures Valid() && state == old(state).(attached := on)
    {
      attached := on;
      state := state.(attached := on);
    }

    method CloseTransport()
      requires Valid()
      modifies Repr
      ensures Valid() && Repr == old(Repr) && state == S.CloseTransport(old(state))
    {
      SetAttached(false);
      if wsTransport != null {
        wsTransport.Close();
        SyncWebSocket();
      } else if polling != null {
        polling.Close();
        SyncPolling();
      }
    }

    method Enter(next: ReadyState)
      requires Valid()
      modifies this`readyState, this`state
      ensures Valid() && state == old(state).(readyState := next)
    {
      readyState := next;
      state := state.(readyState := next);
    }

    /** The timers have moved to `h`. */
    ghost method SyncHeart(h: H.State)
      requires this in Repr && Phase() && ProbeTimers() && Buffers() && Counters() && HasPolling() && HasWebSocket()
               && HasCandidate() && HasLimiter()
      requires h == H.State(now, pingIntervalTimer, strayPingTimers, pingTimeoutTimer, h.lastPong)
      modifies this`state
      ensures Valid() && state == old(state).(heart := h)
    {
      state := state.(heart := h);
    }

    method CancelTimers()
      requires Valid()
      modifies this`pingIntervalTimer, this`pingTimeoutTimer, this`state
      ensures Valid() && state == old(state).(heart := H.Cancel(old(state).heart))
    {
      pingIntervalTimer := H.Idle;
      pingTimeoutTimer := H.Clear(pingTimeoutTimer);
      SyncHeart(H.Cancel(state.heart));
    }

    method OnClose(reason: S.CloseReason)
      requires Valid()
      modifies Repr
      ensures Valid() && Repr == old(Repr) && state == S.OnClose(old(state), reason)
    {
      if readyState == CLOSED {
        return;
      }
      Enter(CLOSED);
      CancelTimers();
      CloseTransport();
      EmitReserved(S.Closed(reason));
    }

    /** The closure that Close runs at once or on "drain". */
    method FinishClose()
      requires Valid()
      modifies Repr
      ensures Valid() && Repr == old(Repr) && state == S.FinishClose(old(state))
    {
      CloseTransport();
      OnClose(S.ForcedClose);
    }

    /** Registers the closure for the next "drain", or takes it off again. */
    method WaitForDrain(wait: bool)
      requires Valid()
      modifies this`closeOnDrain, this`state
      ensures Valid() && state == old(state).(out := old(state).out.(closeOnDrain := wait))
    {
      closeOnDrain := wait;
      state := state.(out := state.out.(closeOnDrain := wait));
    }

    method Close()
      requires Valid()
      modifies Repr
      ensures Valid() && Repr == old(Repr) && state == S.CloseSession(old(state))
    {
      if readyState != OPEN {
        return;
      }
      Enter(CLOSING);
      if |writeBuffer| > 0 {
        WaitForDrain(true);
      } else {
        FinishClose();
      }
    }

    // ----- sending -----

    method Send(packets: seq<Packet>)
      requires Valid()
      modifies Repr
      ensures Valid() && Repr == old(Repr) && state == S.TransportSend(opts, old(state), packets)
    {
      state := S.TransportSend(opts, state, packets);
      if wsTransport != null {
        wsTransport.SendPackets(packets);
      } else if polling != null {
        polling.SendPackets(packets);
      }
    }

    predicate IsWritable()
      reads this, polling, wsTransport
    {
      if wsTransport != null then wsTransport.writable else polling != null && polling.writable
    }

    method OnDrain()
      requires Valid()
      modifies Repr
      ensures Valid() && Repr == old(Repr) && state == S.OnDrained(old(state))
    {
      if closeOnDrain {
        WaitForDrain(false);
        FinishClose();
      }
    }

    method TakeBuffer() returns (buffer: seq<Packet>)
      requires Valid()
      modifies this`writeBuffer, this`state
      ensures Valid() && buffer == old(state).out.buffer
      ensures state == old(state).(out := old(state).out.(buffer := []))
    {
      buffer := writeBuffer;
      writeBuffer := [];
      state := state.(out := state.out.(buffer := []));
    }

    method SendBuffer()
      requires Valid()
      modifies Repr
      ensures Valid() && Repr == old(Repr) && state == S.SendBuffer(opts, old(state))
    {
      ShowPacket(S.Flushed(writeBuffer));
      var buffer := TakeBuffer();
      Send(buffer);
      ShowPacket(S.Drained);
    }

    method Flush()
      requires Valid()
      modifies Repr
      ensures Valid() && Repr == old(Repr) && state == S.Flush(opts, old(state))
    {
      if readyState == CLOSED || !IsWritable() || |writeBuffer| == 0 {
        return;
      }
      SendBuffer();
      OnDrain();
    }

    /** The counters have moved to `m`. */
    ghost method SyncMeter(m: S.Meter)
      requires this in Repr && Phase() && ProbeTimers() && Buffers() && Timers() && HasPolling() && HasWebSocket()
               && HasCandidate() && HasLimiter()
      requires m == S.Meter(hasPacketCreateListener, state.meter.limiter, messagesSent, bytesSent, messagesReceived,
               bytesReceived)
      modifies this`state
      ensures Valid() && state == old(state).(meter := m)
    {
      state := state.(meter := m);
    }

    method CountSent(data: Option<RawData>)
      requires Valid()
      modifies this`messagesSent, this`bytesSent, this`state
      ensures Valid() && state == S.CountSent(opts, old(state), data)
    {
      messagesSent := messagesSent + 1;
      bytesSent := bytesSent + (if data.Some? then opts.byteSize(data.value) else 0);
      SyncMeter(S.CountSent(opts, state, data).meter);
    }

    method Push(p: Packet)
      requires Valid()
      modifies this`writeBuffer, this`state
      ensures Valid()
      ensures var out := old(state).out;
              state == old(state).(out := out.(buffer := out.buffer + [p], accepted := out.accepted + [p]))
    {
      writeBuffer := writeBuffer + [p];
      state := state.(out := state.out.(buffer := state.out.buffer + [p], accepted := state.out.accepted + [p]));
    }

    /** A packet joins the buffer. */
    method Queue(p: Packet)
      requires Valid()
      modifies this`messagesSent, this`bytesSent, this`trace, this`writeBuffer, this`state
      ensures Valid() && state == S.Pushed(opts, old(state), p)
    {
      if p.kind == Message {
        CountSent(p.data);
      }
      if hasPacketCreateListener {
        ShowPacket(S.PacketCreated(p));
      }
      Push(p);
    }

    method SendPacket(p: Packet)
      requires Valid()
      modifies Repr
      ensures Valid() && Repr == old(Repr) && state == S.SendPacket(opts, old(state), p)
    {
      if readyState == CLOSING || readyState == CLOSED {
        return;
      }
      Queue(p);
      Flush();
    }

    /** A frame encoded beforehand, straight to the bound WebSocket. */
    method SendRaw(encoded: RawData, ghost p: Packet)
      requires Valid() && wsTransport != null && encoded == Parser.EncodePacket(p, true)
      modifies wsTransport, this`state
      ensures Valid() && state == S.SendRaw(opts, old(state), p)
    {
      state := S.SendRaw(opts, state, p);
      wsTransport.SendRaw(encoded, p);
    }

    method SendPingOrPong(kind: PacketType)
      requires Valid() && (kind == Ping || kind == Pong)
      modifies Repr
      ensures Valid() && Repr == old(Repr) && state == S.SendPingOrPong(opts, old(state), kind)
    {
      if wsTransport != null && wsTransport.writable {
        SendRaw(if kind == Ping then ENCODED_PING else ENCODED_PONG, Packet(kind, None));
      } else {
        SendPacket(Packet(kind, None));
      }
    }

    /** The message framed in place; false when the WebSocket cannot take it. */
    method SendMessage(data: RawData) returns (done: bool)
      requires Valid() && wsTransport != null && S.Accepting(state)
      modifies wsTransport, this`state
      ensures Valid() && done == W.CanSend(old(state).ws.value)
      ensures state == if done then S.SendRaw(opts, old(state), Packet(Message, Some(data))) else old(state)
    {
      done := wsTransport.SendMessage(data);
      if done {
        state := S.SendRaw(opts, state, Packet(Message, Some(data)));
      }
    }

    method Write(data: RawData)
      requires Valid()
      modifies Repr
      ensures Valid() && Repr == old(Repr) && state == S.Write(opts, old(state), data)
    {
      if readyState == CLOSING || readyState == CLOSED {
        return;
      }
      if wsTransport != null && !hasPacketCreateListener && wsTransport.writable && |writeBuffer| == 0 {
        var done := SendMessage(data);
        if done {
          CountSent(Some(data));
          return;
        }
      }
      SendPacket(Packet(Message, Some(data)));
    }

    /** One socket's part of a broadcast: the frame is encoded once for all. */
    method TakeBroadcast(encoded: RawData, data: RawData)
      requires Valid() && encoded == Parser.EncodePacket(Packet(Message, Some(data)), true)
      modifies Repr
      ensures Valid() && Repr == old(Repr) && state == S.Broadcast(opts, old(state), data)
    {
      if wsTransport != null {
        SendRaw(encoded, Packet(Message, Some(data)));
        CountSent(Some(data));
      } else {
        Write(data);
      }
    }

    // ----- receiving -----

    /** Spends one unit of the message budget, if there is a budget. */
    method Consume() returns (allowed: bool)
      requires Valid()
      modifies this`state, rateLimiter
      ensures Valid()
      ensures allowed == (old(state).meter.limiter.Some? ==> L.Allows(old(state).meter.limiter.value))
      ensures state == if allowed then old(state).(meter := S.Spent(old(state).meter)) else old(state)
    {
      if rateLimiter == null {
        return true;
      }
      allowed := rateLimiter.TryConsume();
      state := state.(meter := S.Spent(state.meter));
    }

    method CountReceived(data: Option<RawData>)
      requires Valid()
      modifies this`messagesReceived, this`bytesReceived, this`state
      ensures Valid() && state == old(state).(meter := S.Tallied(opts, old(state).meter, data))
    {
      messagesReceived := messagesReceived + 1;
      bytesReceived := bytesReceived + (if data.Some? then opts.byteSize(data.value) else 0);
      SyncMeter(S.Tallied(opts, state.meter, data));
    }

    method Accept(data: Option<RawData>)
      requires Valid()
      modifies this`messagesReceived, this`bytesReceived, this`events, this`state
      ensures Valid()
      ensures state == S.Emit(old(state).(meter := S.Tallied(opts, old(state).meter, data)), S.Data(data))
    {
      CountReceived(data);
      EmitReserved(S.Data(data));
    }

    method OnMessage(data: Option<RawData>)
      requires Valid()
      modifies Repr
      ensures Valid() && Repr == old(Repr) && state == S.OnMessage(opts, old(state), data)
    {
      var allowed := Consume();
      if !allowed {
        EmitReserved(S.RateLimited);
      } else {
        Accept(data);
      }
    }

    /** Before the first ping a new timer is made; later the one there is starts over. */
    method SchedulePing()
      requires Valid()
      modifies this`pingIntervalTimer, this`strayPingTimers, this`state
      ensures Valid() && state == old(state).(heart := H.SchedulePing(opts, old(state).heart))
    {
      if pingTimeoutTimer.None? && pingIntervalTimer.Armed? {
        strayPingTimers := strayPingTimers + multiset{pingIntervalTimer.at};
      }
      pingIntervalTimer := H.Armed(now + opts.pingInterval);
      SyncHeart(H.SchedulePing(opts, state.heart));
    }

    method OnPong()
      requires Valid()
      modifies this`pingIntervalTimer, this`strayPingTimers, this`pingTimeoutTimer, this`events, this`state
      ensures Valid()
      ensures state == S.Emit(old(state).(heart := H.PongAccepted(opts, old(state).heart)), S.HeartbeatSeen)
    {
      pingTimeoutTimer := H.Clear(pingTimeoutTimer);
      SyncHeart(state.heart.(timeout := pingTimeoutTimer, lastPong := now));
      SchedulePing();
      EmitReserved(S.HeartbeatSeen);
    }

    method OnPacket(p: Packet)
      requires Valid()
      modifies Repr
      ensures Valid() && Repr == old(Repr) && state == S.OnPacket(opts, old(state), p)
    {
      if readyState != OPEN {
        return;
      }
      ShowPacket(S.PacketSeen(p));
      match p.kind
      case Pong => OnPong();
      case Ping => SendPingOrPong(Pong);
      case Message => OnMessage(p.data);
      case _ => OnClose(S.ParseError);
    }

    method OnMessageFast(data: Option<RawData>)
      requires Valid()
      modifies Repr
      ensures Valid() && Repr == old(Repr) && state == S.OnMessageFast(opts, old(state), data)
    {
      if readyState == OPEN {
        OnMessage(data);
      }
    }

    // What the transports' events lead to, while the session listens.

    method OnTransportDrain()
      requires Valid()
      modifies Repr
      ensures Valid() && Repr == old(Repr) && state == S.TransportDrained(opts, old(state))
    {
      if attached {
        Flush();
      }
    }

    method OnTransportPacket(p: Packet)
      requires Valid()
      modifies Repr
      ensures Valid() && Repr == old(Repr) && state == S.TransportPacket(opts, old(state), p)
    {
      if attached {
        OnPacket(p);
      }
    }

    method OnTransportError()
      requires Valid()
      modifies Repr
      ensures Valid() && Repr == old(Repr) && state == S.TransportFailed(old(state))
    {
      if attached {
        OnClose(S.TransportError);
      }
    }

    method OnTransportClose()
      requires Valid()
      modifies Repr
      ensures Valid() && Repr == old(Repr) && state == S.TransportClosed(old(state))
    {
      if attached {
        OnClose(S.TransportClose);
      }
    }

    // ----- the polling side -----

    /** The polling transport has moved to `next`. */
    ghost method SyncPolling()
      requires this in Repr && polling != null && polling in Repr && polling.Valid()
      requires Phase() && ProbeTimers() && Buffers() && Timers() && Counters() && HasWebSocket() && HasCandidate()
               && HasLimiter()
      modifies this`state
      ensures Valid() && state == old(state).(polling := Some(polling.Abs()))
    {
      state := state.(polling := Some(polling.Abs()));
    }

    method AcceptPoll()
      requires Valid() && polling != null && state.polling.value.pending.None?
      modifies Repr
      ensures Valid() && Repr == old(Repr)
      ensures state == S.TransportDrained(opts, old(state).(polling := Some(P.Accept(old(state).polling.value))))
    {
      var _ := polling.OnPollRequest();
      SyncPolling();
      OnTransportDrain();
    }

    method RefusePoll()
      requires Valid() && polling != null
      modifies Repr
      ensures Valid() && Repr == old(Repr)
      ensures var s := S.TransportFailed(old(state));
              state == if s.polling.Some? then s.(polling := Some(P.Refuse(s.polling.value))) else s
    {
      OnTransportError();
      if polling != null {
        polling.RefuseOverlap();
        SyncPolling();
      }
    }

    /** A GET. */
    method OnPollRequest()
      requires Valid()
      modifies Repr
      ensures Valid() && Repr == old(Repr) && state == S.PollArrives(opts, old(state))
    {
      if readyState == CLOSED || wsTransport != null || polling == null {
        return;
      }
      if polling.pollingPromise.Some? {
        RefusePoll();
      } else {
        AcceptPoll();
      }
    }

    method OnPollTimeout(poll: nat)
      requires Valid()
      modifies Repr
      ensures Valid() && Repr == old(Repr) && state == S.PollTimesOut(old(state), poll)
    {
      if polling == null {
        return;
      }
      var error := polling.OnPollTimeout(poll);
      SyncPolling();
      if error && wsTransport == null {
        OnTransportError();
      }
    }

    method OnPollAbort(poll: nat)
      requires Valid()
      modifies Repr
      ensures Valid() && Repr == old(Repr) && state == S.PollAborts(old(state), poll)
    {
      if polling == null {
        return;
      }
      var error := polling.OnAbort(poll);
      SyncPolling();
      if error && wsTransport == null {
        OnTransportError();
      }
    }

    method OnPostedPacket(p: Packet)
      requires Valid()
      modifies Repr
      ensures Valid() && Repr == old(Repr) && state == S.PostedPacket(opts, old(state), p)
    {
      if polling == null {
        return;
      }
      if p.kind == PacketType.Close {
        polling.Finish();
        SyncPolling();
        if wsTransport == null {
          OnTransportClose();
        }
      } else if wsTransport == null {
        OnTransportPacket(p);
      }
    }

    method OnPostedPackets(packets: seq<Packet>)
      requires Valid()
      modifies Repr
      ensures Valid() && Repr == old(Repr) && state == S.PostArrives(opts, old(state), packets)
    {
      ghost var goal := S.PostArrives(opts, state, packets);
      for i := 0 to |packets|
        invariant Valid() && Repr == old(Repr)
        invariant S.PostArrives(opts, state, packets[i..]) == goal
      {
        assert packets[i..][0] == packets[i] && packets[i..][1..] == packets[i + 1..];
        OnPostedPacket(packets[i]);
      }
    }

    /** The body of a POST. */
    method OnPost(body: string)
      requires Valid()
      modifies Repr
      ensures Valid() && Repr == old(Repr) && state == S.PostArrives(opts, old(state), Parser.Unpack(body))
    {
      var packets := Parser.DecodePayload(body);
      OnPostedPackets(packets);
    }

    // ----- the WebSocket side -----

    ghost method SyncWebSocket()
      requires this in Repr && wsTransport != null && wsTransport in Repr && wsTransport.Valid()
               && wsTransport.opts == opts
      requires Phase() && ProbeTimers() && Buffers() && Timers() && Counters() && HasPolling() && HasCandidate()
               && HasLimiter()
      modifies this`state
      ensures Valid() && state == old(state).(ws := Some(wsTransport.Abs()))
    {
      state := state.(ws := Some(wsTransport.Abs()));
    }

    method Resume()
      requires Valid() && wsTransport != null
      modifies Repr
      ensures Valid() && Repr == old(Repr) && state == S.Resumed(opts, old(state))
    {
      var drain := wsTransport.ResumeWrites();
      SyncWebSocket();
      if drain {
        OnTransportDrain();
      }
    }

    method Dispatch(frame: RawData)
      requires Valid()
      modifies Repr
      ensures Valid() && Repr == old(Repr) && state == S.Dispatch(opts, old(state), frame)
    {
      if frame.Text? && |frame.text| > 0 && frame.text[0] == '4' {
        OnMessageFast(if |frame.text| > 1 then Some(Text(frame.text[1..])) else None);
      } else {
        OnDecoded(Parser.DecodePacket(frame));
      }
    }

    method OnDecoded(p: Packet)
      requires Valid()
      modifies Repr
      ensures Valid() && Repr == old(Repr) && state == S.DecodedFrame(opts, old(state), p)
    {
      if p.kind != PacketType.Close {
        OnTransportPacket(p);
      } else if wsTransport != null {
        wsTransport.Disconnect();
        SyncWebSocket();
      }
    }

    /** A frame on the bound WebSocket. */
    method OnFrame(frame: RawData)
      requires Valid()
      modifies Repr
      ensures Valid() && Repr == old(Repr) && state == S.Apply(opts, old(state), S.FrameIn(frame))
    {
      if wsTransport == null || wsTransport.socket == W.Disconnected {
        return;
      }
      Resume();
      Dispatch(frame);
    }

    method OnWebSocketClose()
      requires Valid()
      modifies Repr
      ensures Valid() && Repr == old(Repr) && state == S.Apply(opts, old(state), S.WsClose)
    {
      if wsTransport == null || wsTransport.socket == W.Disconnected {
        return;
      }
      wsTransport.OnCloseEvent();
      SyncWebSocket();
      OnTransportClose();
    }

    method OnWebSocketDrain(buffered: nat, room: nat)
      requires Valid()
      modifies Repr
      ensures Valid() && Repr == old(Repr) && state == S.Apply(opts, old(state), S.WsDrain(buffered, room))
    {
      if wsTransport != null {
        wsTransport.OnNetwork(buffered, room);
        SyncWebSocket();
      }
    }

    // ----- the upgrade -----

    /** The candidate has moved, and so have the timers of the upgrade. */
    ghost method SyncProbe(p: S.Probe)
      requires this in Repr && Phase() && Buffers() && Timers() && Counters()
      requires HasPolling() && HasWebSocket() && HasLimiter()
      requires candidate != null ==>
                 candidate in Repr && candidate.Valid() && candidate.opts == opts && candidate != wsTransport
      requires p == S.Probe(if candidate == null then None else Some(candidate.Abs()),
                            upgradeTimeout, fastUpgradeTimer, strayUpgradeTimers)
      modifies this`state
      ensures Valid() && state == old(state).(probe := p)
    {
      state := state.(probe := p);
    }

    method SetUpgradeState(next: S.UpgradeState)
      requires Valid()
      modifies this`upgradeState, this`state
      ensures Valid() && state == old(state).(upgradeState := next)
    {
      upgradeState := next;
      state := state.(upgradeState := next);
    }

    method SetUpgradeTimers(timeout: bool, fast: bool)
      requires Valid()
      modifies this`upgradeTimeout, this`fastUpgradeTimer, this`state
      ensures Valid() && state == old(state).(probe := old(state).probe.(timeout := timeout, noopTimer := fast))
    {
      upgradeTimeout, fastUpgradeTimer := timeout, fast;
      SyncProbe(state.probe.(timeout := timeout, noopTimer := fast));
    }

    method Admit(transport: W.WS)
      requires Valid() && transport !in Repr && transport.Valid() && transport.opts == opts
      modifies this`candidate, this`Repr, this`state
      ensures Valid() && Repr == old(Repr) + {transport}
      ensures state == S.Probing(old(state), transport.Abs())
    {
      Repr := Repr + {transport};
      candidate := transport;
      SyncProbe(state.probe.(transport := Some(transport.Abs())));
    }

    /** A second candidate, or one for a session that has moved on, is closed, and nothing else happens. */
    method MaybeUpgrade(transport: W.WS, ghost room: nat)
      requires Valid() && transport !in Repr && transport.Valid() && transport.opts == opts
      requires transport.Abs() == W.Opened(W.Created, room)
      requires readyState != CLOSED && (wsTransport == null || upgradeState != S.NotUpgraded)
      modifies Repr, transport
      ensures Valid() && state == S.UpgradeRequested(old(state), room)
      ensures Repr == if old(state).upgradeState == S.NotUpgraded then old(Repr) + {transport} else old(Repr)
      ensures old(state).upgradeState != S.NotUpgraded ==>
                transport.Valid() && transport.Abs() == W.Shut(old(transport.Abs()))
    {
      if upgradeState != S.NotUpgraded {
        transport.Close();
        return;
      }
      SetUpgradeState(S.Upgrading);
      Admit(transport);
      SetUpgradeTimers(true, fastUpgradeTimer);
    }

    method SendNoop()
      requires Valid()
      modifies Repr
      ensures Valid() && Repr == old(Repr) && state == S.SendNoop(opts, old(state))
    {
      if wsTransport == null && polling != null && polling.writable {
        polling.SendPackets([Packet(Noop, None)]);
        SyncPolling();
      }
    }

    /** The candidate becomes the bound transport. */
    method Bind()
      requires Valid() && candidate != null
      modifies this`wsTransport, this`candidate, this`state
      ensures Valid()
      ensures var s := old(state);
              state == s.(ws := s.probe.transport, probe := s.probe.(transport := None))
    {
      wsTransport, candidate := candidate, null;
      state := state.(ws := state.probe.transport, probe := state.probe.(transport := None));
    }

    method RetirePolling()
      requires Valid()
      modifies Repr
      ensures Valid() && Repr == old(Repr)
      ensures var polling := old(state).polling;
              state == old(state).(polling := if polling.Some? then Some(P.Shut(polling.value)) else None)
    {
      if polling != null {
        polling.Close();
        SyncPolling();
      }
    }

    method TakeOver()
      requires Valid() && candidate != null
      modifies Repr
      ensures Valid() && Repr == old(Repr)
      ensures state == S.TakeOver(opts, old(state), old(state).probe.transport.value)
    {
      Rebind();
      EmitReserved(S.UpgradeDone);
      Flush();
    }

    /** The candidate is bound before the old transport is closed. */
    method Rebind()
      requires Valid() && candidate != null
      modifies Repr
      ensures Valid() && Repr == old(Repr)
      ensures var s := old(state);
              state == s.(upgradeState := S.Upgraded, ws := s.probe.transport, attached := true,
                          probe := s.probe.(transport := None, timeout := false, noopTimer := false),
                          polling := if s.polling.Some? then Some(P.Shut(s.polling.value)) else None)
    {
      SetUpgradeState(S.Upgraded);
      SetUpgradeTimers(false, false);
      Bind();
      SetAttached(true);
      RetirePolling();
    }

    /** The candidate is closed, its timeout cleared. */
    method RejectCandidate()
      requires Valid() && candidate != null
      modifies Repr
      ensures Valid() && Repr == old(Repr)
      ensures var probe := old(state).probe;
              state == old(state).(probe := probe.(timeout := false, transport := Some(W.Shut(probe.transport.value))))
    {
      SetUpgradeTimers(false, fastUpgradeTimer);
      ShutCandidate();
    }

    method AnswerProbe()
      requires Valid() && candidate != null
      modifies Repr
      ensures Valid() && Repr == old(Repr)
      ensures state == S.Probing(old(state), W.Send(opts, old(state).probe.transport.value, [PROBE_PONG]))
    {
      candidate.SendPackets([PROBE_PONG]);
      SyncProbe(state.probe.(transport := Some(candidate.Abs())));
    }

    method StartFastUpgradeTimer()
      requires Valid()
      modifies this`fastUpgradeTimer, this`strayUpgradeTimers, this`state
      ensures Valid() && state == old(state).(probe := S.StartNoopTimer(old(state).probe))
    {
      if fastUpgradeTimer {
        strayUpgradeTimers := strayUpgradeTimers + 1;
      }
      fastUpgradeTimer := true;
      SyncProbe(S.StartNoopTimer(state.probe));
    }

    method OnCandidatePacket(p: Packet)
      requires Valid() && candidate != null
      modifies Repr
      ensures Valid() && Repr == old(Repr) && state == S.CandidatePacket(opts, old(state), p)
    {
      if p == Packet(Ping, Some(Text("probe"))) {
        AnswerProbe();
        SendNoop();
        StartFastUpgradeTimer();
        EmitReserved(S.UpgradeStarted);
      } else if p.kind == Upgrade && readyState != CLOSED {
        TakeOver();
      } else {
        RejectCandidate();
      }
    }

    /** What input does to the candidate itself: a pause may end. */
    method ResumeCandidate()
      requires Valid() && candidate != null
      modifies Repr
      ensures Valid() && Repr == old(Repr) && candidate != null
      ensures state == S.Probing(old(state), W.Resume(opts, old(state).probe.transport.value))
    {
      var _ := candidate.ResumeWrites();
      SyncProbe(state.probe.(transport := Some(candidate.Abs())));
    }

    method DisconnectCandidate()
      requires Valid() && candidate != null
      modifies Repr
      ensures Valid() && Repr == old(Repr)
      ensures state == S.Probing(old(state), W.DoClose(old(state).probe.transport.value))
    {
      candidate.Disconnect();
      SyncProbe(state.probe.(transport := Some(candidate.Abs())));
    }

    method OnCandidateFrame(frame: RawData)
      requires Valid()
      modifies Repr
      ensures Valid() && Repr == old(Repr) && state == S.Apply(opts, old(state), S.ProbeFrameIn(frame))
    {
      if candidate == null || candidate.socket == W.Disconnected {
        return;
      }
      ResumeCandidate();
      var p := Parser.DecodePacket(frame);
      if p.kind == PacketType.Close {
        DisconnectCandidate();
      } else {
        OnCandidatePacket(p);
      }
    }

    /** Its handlers and timers are gone: nothing of it concerns the session any more. */
    method ForgetCandidate()
      requires Valid()
      modifies this`candidate, this`upgradeTimeout, this`fastUpgradeTimer, this`state
      ensures Valid()
      ensures state == old(state).(probe := old(state).probe.(transport := None, timeout := false, noopTimer := false))
    {
      candidate, upgradeTimeout, fastUpgradeTimer := null, false, false;
      SyncProbe(state.probe.(transport := None, timeout := false, noopTimer := false));
    }

    method OnCandidateClose()
      requires Valid()
      modifies Repr
      ensures Valid() && Repr == old(Repr) && state == S.Apply(opts, old(state), S.ProbeClose)
    {
      if candidate != null {
        CloseCandidate();
        ForgetCandidate();
      }
    }

    /** Bun has closed the candidate's socket. */
    method CloseCandidate()
      requires Valid() && candidate != null
      modifies Repr
      ensures Valid() && Repr == old(Repr) && candidate == old(candidate)
      ensures state == S.Probing(old(state), W.CloseEvent(old(state).probe.transport.value))
    {
      candidate.OnCloseEvent();
      SyncProbe(state.probe.(transport := Some(candidate.Abs())));
    }

    method OnCandidateDrain(buffered: nat, room: nat)
      requires Valid()
      modifies Repr
      ensures Valid() && Repr == old(Repr) && state == S.Apply(opts, old(state), S.ProbeDrain(buffered, room))
    {
      if candidate != null {
        candidate.OnNetwork(buffered, room);
        SyncProbe(state.probe.(transport := Some(candidate.Abs())));
      }
    }

    method OnUpgradeTimeout()
      requires Valid()
      modifies Repr
      ensures Valid() && Repr == old(Repr) && state == S.Apply(opts, old(state), S.UpgradeTimeout)
    {
      if upgradeTimeout && candidate != null {
        SetUpgradeTimers(false, fastUpgradeTimer);
        if candidate.writable && candidate.readyState != CLOSED && candidate.readyState != CLOSING {
          ShutCandidate();
        }
      }
    }

    method ShutCandidate()
      requires Valid() && candidate != null
      modifies Repr
      ensures Valid() && Repr == old(Repr)
      ensures state == S.Probing(old(state), W.Shut(old(state).probe.transport.value))
    {
      candidate.Close();
      SyncProbe(state.probe.(transport := Some(candidate.Abs())));
    }

    method OnFastUpgradeTick()
      requires Valid()
      modifies Repr
      ensures Valid() && Repr == old(Repr) && state == S.Apply(opts, old(state), S.NoopTimer)
    {
      if fastUpgradeTimer || strayUpgradeTimers > 0 {
        SendNoop();
      }
    }

    // ----- time -----

    method ResetPingTimeout()
      requires Valid()
      modifies this`pingTimeoutTimer, this`state
      ensures Valid() && state == old(state).(heart := H.ResetPingTimeout(opts, old(state).heart))
    {
      pingTimeoutTimer := Some(H.Armed(now + opts.pingTimeout));
      SyncHeart(H.ResetPingTimeout(opts, state.heart));
    }

    method SendPing()
      requires Valid()
      modifies Repr
      ensures Valid() && Repr == old(Repr) && state == S.SendPing(opts, old(state))
    {
      SendPingOrPong(Ping);
      ResetPingTimeout();
    }

    // A timer that fired is armed no more.

    method SpendInterval()
      requires Valid()
      modifies this`pingIntervalTimer, this`state
      ensures Valid() && state == old(state).(heart := H.FireInterval(old(state).heart))
    {
      pingIntervalTimer := H.Idle;
      SyncHeart(H.FireInterval(state.heart));
    }

    method SpendStray()
      requires Valid()
      modifies this`strayPingTimers, this`state
      ensures Valid() && state == old(state).(heart := H.FireStray(old(state).heart))
    {
      strayPingTimers := strayPingTimers - multiset{now};
      SyncHeart(H.FireStray(state.heart));
    }

    method SpendTimeout()
      requires Valid()
      modifies this`pingTimeoutTimer, this`state
      ensures Valid() && state == old(state).(heart := H.FireTimeout(old(state).heart))
    {
      pingTimeoutTimer := Some(H.Idle);
      SyncHeart(H.FireTimeout(state.heart));
    }

    method OnPingInterval()
      requires Valid()
      modifies Repr
      ensures Valid() && Repr == old(Repr) && state == S.IntervalFires(opts, old(state))
    {
      if pingIntervalTimer == H.Armed(now) {
        SpendInterval();
        SendPing();
      }
    }

    method OnStrayPingInterval()
      requires Valid()
      modifies Repr
      ensures Valid() && Repr == old(Repr) && state == S.StrayFires(opts, old(state))
    {
      if now in strayPingTimers {
        SpendStray();
        SendPing();
      }
    }

    method OnPingTimeout()
      requires Valid()
      modifies Repr
      ensures Valid() && Repr == old(Repr) && state == S.PingTimesOut(old(state))
    {
      if pingTimeoutTimer == Some(H.Armed(now)) {
        SpendTimeout();
        OnClose(S.PingTimeout);
      }
    }

    /** The shared tick, for a limiter that is still registered. */
    method OnLimiterTick()
      requires Valid()
      modifies this`state, rateLimiter
      ensures Valid() && state == S.Apply(opts, old(state), S.LimiterTimer)
    {
      if readyState != CLOSED && rateLimiter != null {
        rateLimiter.Refill(now);
        state := state.(meter := state.meter.(limiter := Some(rateLimiter.Abs())));
      }
    }

    method EnablePacketCreate()
      requires Valid()
      modifies this`hasPacketCreateListener, this`state
      ensures Valid() && state == old(state).(meter := old(state).meter.(packetCreate := true))
    {
      hasPacketCreateListener := true;
      SyncMeter(state.meter.(packetCreate := true));
    }

    /** Time passes, up to the next deadline. */
    method AdvanceClock(t: int)
      requires Valid()
      modifies this`now, this`state
      ensures Valid() && state == S.Apply(opts, old(state), S.Wait(t))
    {
      if && now <= t && (pingIntervalTimer.Armed? ==> t <= pingIntervalTimer.at)
         && (pingTimeoutTimer.Some? && pingTimeoutTimer.value.Armed? ==> t <= pingTimeoutTimer.value.at)
         && (forall d | d in strayPingTimers :: t <= d) {
        now := t;
        SyncHeart(state.heart.(now := t));
      }
    }

    /** The server found a WebSocket for a session that polls, or polled when the request came in. */
    method OnUpgradeRequest(room: nat)
      requires Valid()
      modifies Repr
      ensures Valid() && fresh(Repr - old(Repr)) && state == S.Apply(opts, old(state), S.UpgradeIn(room))
    {
      if readyState == CLOSED || (wsTransport != null && upgradeState == S.NotUpgraded) {
        return;
      }
      var transport := new W.WS(opts);
      transport.OnOpen(room);
      MaybeUpgrade(transport, room);
    }

    // ----- any step -----

    method PerformOuter(step: S.Step)
      requires Valid() && S.IsOuterStep(step)
      modifies Repr
      ensures Valid() && Repr == old(Repr) && state == S.Apply(opts, old(state), step)
    {
      if IsCall(step) {
        PerformCall(step);
      } else {
        PerformRequest(step);
      }
    }

    /** What the application does. */
    method PerformCall(step: S.Step)
      requires Valid() && IsCall(step)
      modifies Repr
      ensures Valid() && Repr == old(Repr) && state == S.Apply(opts, old(state), step)
    {
      match step
      case DoWrite(data) => Write(data);
      case DoBroadcast(data) => TakeBroadcast(Parser.EncodePacket(Packet(Message, Some(data)), true), data);
      case DoClose => Close();
      case EnablePacketCreate => EnablePacketCreate();
    }

    /** What happens on a polling request. */
    method PerformRequest(step: S.Step)
      requires Valid() && S.IsOuterStep(step) && !IsCall(step)
      modifies Repr
      ensures Valid() && Repr == old(Repr) && state == S.Apply(opts, old(state), step)
    {
      match step
      case PollIn => OnPollRequest();
      case PollTimeout(poll) => OnPollTimeout(poll);
      case PollAbort(poll) => OnPollAbort(poll);
      case PostIn(packets) => OnPostedPackets(packets);
    }

    method PerformFrame(step: S.Step)
      requires Valid() && IsFrame(step)
      modifies Repr
      ensures Valid() && Repr == old(Repr) && state == S.Apply(opts, old(state), step)
    {
      match step
      case FrameIn(frame) => OnFrame(frame);
      case WsClose => OnWebSocketClose();
      case WsDrain(buffered, room) => OnWebSocketDrain(buffered, room);
      case ProbeFrameIn(frame) => OnCandidateFrame(frame);
      case ProbeClose => OnCandidateClose();
      case ProbeDrain(buffered, room) => OnCandidateDrain(buffered, room);
    }

    method PerformTick(step: S.Step)
      requires Valid() && IsTick(step)
      modifies Repr
      ensures Valid() && Repr == old(Repr) && state == S.Apply(opts, old(state), step)
    {
      match step
      case UpgradeTimeout => OnUpgradeTimeout();
      case NoopTimer => OnFastUpgradeTick();
      case LimiterTimer => OnLimiterTick();
      case Wait(t) => AdvanceClock(t);
    }

    method PerformPing(step: S.Step)
      requires Valid() && IsPing(step)
      modifies Repr
      ensures Valid() && Repr == old(Repr) && state == S.Apply(opts, old(state), step)
    {
      if step.PingTimer? {
        OnPingInterval();
      } else {
        OnStrayPingInterval();
      }
    }

    method PerformTransport(step: S.Step)
      requires Valid() && (step.UpgradeIn? || IsFrame(step))
      modifies Repr
      ensures Valid() && fresh(Repr - old(Repr)) && state == S.Apply(opts, old(state), step)
    {
      if step.UpgradeIn? {
        OnUpgradeRequest(step.room);
      } else {
        PerformFrame(step);
      }
    }

    method PerformTimer(step: S.Step)
      requires Valid() && (step.PingTimeoutTimer? || IsPing(step) || IsTick(step))
      modifies Repr
      ensures Valid() && Repr == old(Repr) && state == S.Apply(opts, old(state), step)
    {
      if step.PingTimeoutTimer? {
        OnPingTimeout();
      } else if IsPing(step) {
        PerformPing(step);
      } else {
        PerformTick(step);
      }
    }

    /** One step of the state machine, whichever it is. */
    method Perform(step: S.Step)
      requires Valid()
      modifies Repr
      ensures Valid() && fresh(Repr - old(Repr)) && state == S.Apply(opts, old(state), step)
    {
      if S.IsOuterStep(step) {
        PerformOuter(step);
      } else if step.UpgradeIn? || IsFrame(step) {
        PerformTransport(step);
      } else {
        PerformTimer(step);
      }
    }

    // ----- the start -----

    method OnOpen(handshake: string)
      requires Valid()
      modifies Repr
      ensures Valid() && Repr == old(Repr) && state == S.OnOpen(opts, old(state), handshake)
    {
      Enter(OPEN);
      SendPacket(Packet(Open, Some(Text(handshake))));
      EmitReserved(S.Opened);
      SchedulePing();
    }

    /**
     * A socket that is not open yet, on the transport of its handshake: a new polling
     * transport, or an open WebSocket.
     */
    constructor (opts: Options, polling: P.Polling?, wsTransport: W.WS?, ghost room: nat, now: int)
      requires (polling == null) != (wsTransport == null)
      requires polling != null ==> polling.Valid() && polling.Abs() == P.Created
      requires wsTransport != null ==> wsTransport.Valid() && wsTransport.opts == opts
                                       && wsTransport.Abs() == W.Opened(W.Created, room)
      ensures Valid() && fresh(Repr - {polling, wsTransport}) && this.opts == opts
      ensures state == S.Fresh(opts, wsTransport != null, room, now)
    {
      this.opts := opts;
      readyState, upgradeState := OPENING, S.NotUpgraded;
      this.polling, this.wsTransport, attached := polling, wsTransport, true;
      candidate, upgradeTimeout, fastUpgradeTimer, strayUpgradeTimers := null, false, false, 0;
      writeBuffer, closeOnDrain := [], false;
      this.now, pingIntervalTimer, strayPingTimers, pingTimeoutTimer := now, H.Idle, multiset{}, None;
      hasPacketCreateListener, messagesSent, bytesSent, messagesReceived, bytesReceived := false, 0, 0, 0, 0;
      events, trace := [], [];
      var limiter: L.RateLimiter? := null;
      ghost var transport: object := if polling != null then polling else wsTransport;
      ghost var made: set<object> := {};
      if opts.rateLimit.Some? {
        limiter := new L.RateLimiter(opts.rateLimit.value, now);
        made := {limiter};
      }
      rateLimiter := limiter;
      state := S.Fresh(opts, wsTransport != null, room, now);
      Repr := {this, transport} + made;
    }

    /** Constructed and opened. */
    static method Connect(opts: Options, polling: P.Polling?, wsTransport: W.WS?, ghost room: nat, handshake: string,
        now: int)
      returns (socket: Socket)
      requires (polling == null) != (wsTransport == null)
      requires polling != null ==> polling.Valid() && polling.Abs() == P.Created
      requires wsTransport != null ==> wsTransport.Valid() && wsTransport.opts == opts
                                       && wsTransport.Abs() == W.Opened(W.Created, room)
      modifies polling, wsTransport
      ensures socket.Valid() && fresh(socket.Repr - {polling, wsTransport}) && socket.opts == opts
      ensures socket.state == S.Start(opts, wsTransport != null, room, handshake, now)
    {
      socket := new Socket(opts, polling, wsTransport, room, now);
      socket.OnOpen(handshake);
    }
  }
}
