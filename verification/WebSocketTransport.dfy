/** The WebSocket transport: frames out, amortised backpressure, resume on input. */
module WebSocketTransport {
  import opened Packets
  import opened Transport
  import Parser

  const BACKPRESSURE_CHECK_INTERVAL := 32

  /** The Bun socket: not there yet, open, closing or closed. */
  datatype Link = Absent | Connected | Disconnecting | Disconnected

  /**
   * The abstract value of a transport. The Bun socket appears by its effects: the
   * packets framed so far, the bytes it still buffers and the bytes the operating
   * system will take before anything is buffered.
   */
  datatype State = State(
    writable: bool,
    readyState: ReadyState,
    link: Link,
    sendCount: nat,
    buffered: nat,
    room: nat,
    frames: seq<Packet>)

  const Created := State(false, OPEN, Absent, 0, 0, 0, [])

  function EncodeFrames(ps: seq<Packet>): seq<RawData> {
    seq(|ps|, i requires 0 <= i < |ps| => Parser.EncodePacket(ps[i], true))
  }

  function FrameBytes(opts: Options, ps: seq<Packet>): nat {
    if ps == [] then 0
    else FrameBytes(opts, ps[..|ps| - 1]) + opts.byteSize(Parser.EncodePacket(ps[|ps| - 1], true))
  }

  /** Handing n bytes to the Bun socket. */
  function Absorb(w: State, n: nat): State {
    if n <= w.room then w.(room := w.room - n)
    else w.(room := 0, buffered := w.buffered + (n - w.room))
  }

  predicate CanSend(w: State) {
    w.writable && w.link == Connected
  }

  function CheckAndApplyBackpressure(opts: Options, w: State): State {
    if opts.backpressureThreshold > 0 then
      var counted := w.(sendCount := w.sendCount + 1);
      if && counted.sendCount % BACKPRESSURE_CHECK_INTERVAL == 0
         && counted.link == Connected
         && counted.buffered > opts.backpressureThreshold
      then counted.(writable := false)
      else counted
    else w
  }

  function Send(opts: Options, w: State, ps: seq<Packet>): State {
    if !CanSend(w) then w
    else CheckAndApplyBackpressure(opts, Absorb(w, FrameBytes(opts, ps)).(frames := w.frames + ps))
  }

  /** The socket is there: writes may start. */
  function Opened(w: State, room: nat): State {
    w.(writable := true, link := Connected, sendCount := 0, buffered := 0, room := room)
  }

  /** Input arrived: a paused transport resumes once the buffer is at or below the threshold. */
  predicate Resumes(opts: Options, w: State) {
    !w.writable && opts.backpressureThreshold > 0 && w.link != Absent && w.buffered <= opts.backpressureThreshold
  }

  function Resume(opts: Options, w: State): State {
    if Resumes(opts, w) then w.(writable := true) else w
  }

  function DoClose(w: State): State {
    if w.link == Connected then w.(link := Disconnecting) else w
  }

  function Shut(w: State): State {
    if w.readyState == CLOSING || w.readyState == CLOSED then w
    else DoClose(w.(readyState := CLOSING))
  }

  function CloseEvent(w: State): State {
    w.(readyState := CLOSED, link := Disconnected)
  }

  /** The network only ever drains the buffer. */
  function Drain(w: State, buffered: nat, room: nat): State {
    if buffered <= w.buffered then w.(buffered := buffered, room := room) else w
  }

  // ----- the buffered-bytes bound -----

  datatype Op =
    | OpSend(packets: seq<Packet>)
    | OpInput
    | OpDrain(buffered: nat, room: nat)
    | OpDoClose
    | OpClose
    | OpCloseEvent

  function Apply(opts: Options, w: State, op: Op): State {
    match op
    case OpSend(ps) => Send(opts, w, ps)
    case OpInput => Resume(opts, w)
    case OpDrain(b, r) => Drain(w, b, r)
    case OpDoClose => DoClose(w)
    case OpClose => Shut(w)
    case OpCloseEvent => CloseEvent(w)
  }

  function Run(opts: Options, w: State, ops: seq<Op>): State
    decreases |ops|
  {
    if ops == [] then w else Run(opts, Apply(opts, w, ops[0]), ops[1..])
  }

  /** Each call hands over at most `most` bytes. */
  predicate Fits(opts: Options, op: Op, most: nat) {
    op.OpSend? ==> FrameBytes(opts, op.packets) <= most
  }

  /** While writable the excess over the threshold is paid for by the sends since the last check. */
  predicate Bounded(opts: Options, w: State, most: nat) {
    && w.buffered <= opts.backpressureThreshold + BACKPRESSURE_CHECK_INTERVAL * most
    && (CanSend(w) ==>
          w.buffered <= opts.backpressureThreshold + w.sendCount % BACKPRESSURE_CHECK_INTERVAL * most)
  }

  lemma OneMoreSend(n: nat, most: nat)
    ensures (n + 1) % 32 == 0 ==> n % 32 * most + most == 32 * most
    ensures (n + 1) % 32 != 0 ==> (n + 1) % 32 * most == n % 32 * most + most
    ensures n % 32 * most + most <= 32 * most
  {
    var k := n % 32;
    assert (n + 1) % 32 == if k == 31 then 0 else k + 1;
    assert (k + 1) * most == k * most + most;
    assert (31 - k) * most >= 0;
    assert 32 * most == (k + 1) * most + (31 - k) * most;
  }

  lemma SendKeepsBound(opts: Options, w: State, ps: seq<Packet>, most: nat)
    requires opts.backpressureThreshold > 0 && Bounded(opts, w, most) && FrameBytes(opts, ps) <= most
    ensures Bounded(opts, Send(opts, w, ps), most)
  {
    if CanSend(w) {
      OneMoreSend(w.sendCount, most);
      var w1 := Absorb(w, FrameBytes(opts, ps)).(frames := w.frames + ps);
      assert w1.buffered <= w.buffered + most;
      var w2 := CheckAndApplyBackpressure(opts, w1);
      assert w2.buffered == w1.buffered && w2.sendCount == w.sendCount + 1;
    }
  }

  lemma ApplyKeepsBound(opts: Options, w: State, op: Op, most: nat)
    requires opts.backpressureThreshold > 0 && Bounded(opts, w, most) && Fits(opts, op, most)
    ensures Bounded(opts, Apply(opts, w, op), most)
  {
    match op
    case OpSend(ps) => SendKeepsBound(opts, w, ps, most);
    case OpInput => assert w.sendCount % BACKPRESSURE_CHECK_INTERVAL * most >= 0;
    case _ =>
  }

  lemma {:induction false} RunKeepsBound(opts: Options, w: State, ops: seq<Op>, most: nat)
    requires opts.backpressureThreshold > 0 && Bounded(opts, w, most)
    requires forall op | op in ops :: Fits(opts, op, most)
    ensures Bounded(opts, Run(opts, w, ops), most)
    decreases |ops|
  {
    if ops != [] {
      ApplyKeepsBound(opts, w, ops[0], most);
      RunKeepsBound(opts, Apply(opts, w, ops[0]), ops[1..], most);
    }
  }

  /**
   * Whatever is sent, received and drained, in any order, a freshly opened transport
   * never holds more than the threshold and 32 calls' worth of bytes.
   */
  lemma BufferedBytesBound(opts: Options, room: nat, ops: seq<Op>, most: nat)
    requires opts.backpressureThreshold > 0
    requires forall op | op in ops :: Fits(opts, op, most)
    ensures var w := Run(opts, Opened(Created, room), ops);
            && w.buffered <= opts.backpressureThreshold + 32 * most
            && (CanSend(w) ==> w.buffered <= opts.backpressureThreshold + w.sendCount % 32 * most)
  {
    RunKeepsBound(opts, Opened(Created, room), ops, most);
  }

  /** A paused transport sends nothing until the buffer is at or below the threshold. */
  lemma {:induction false} PausedUntilDrained(opts: Options, w: State, ops: seq<Op>)
    requires !w.writable
    requires w.buffered > opts.backpressureThreshold
    requires forall i | 0 <= i <= |ops| :: Run(opts, w, ops[..i]).buffered > opts.backpressureThreshold
    ensures Run(opts, w, ops).frames == w.frames && !Run(opts, w, ops).writable
    decreases |ops|
  {
    if ops != [] {
      var w' := Apply(opts, w, ops[0]);
      assert !w'.writable && w'.frames == w.frames;
      forall i | 0 <= i <= |ops| - 1
        ensures Run(opts, w', ops[1..][..i]).buffered > opts.backpressureThreshold
      {
        assert ops[..i + 1][0] == ops[0] && ops[..i + 1][1..] == ops[1..][..i];
        assert Run(opts, w, ops[..i + 1]).buffered > opts.backpressureThreshold;
      }
      assert Run(opts, w', ops[1..][..0]).buffered > opts.backpressureThreshold;
      PausedUntilDrained(opts, w', ops[1..]);
    }
  }

  // ----- when it pauses, and when it goes on -----

  /** How many calls a run sends with: those that find the transport writable on an open socket. */
  function SendsIn(opts: Options, w: State, ops: seq<Op>): nat
    decreases |ops|
  {
    if ops == [] then 0
    else
      var taken := ops[0].OpSend? && w.writable && w.link == Connected;
      (if taken then 1 else 0) + SendsIn(opts, Apply(opts, w, ops[0]), ops[1..])
  }

  lemma {:induction false} SendsAreCounted(opts: Options, w: State, ops: seq<Op>)
    requires opts.backpressureThreshold > 0
    ensures Run(opts, w, ops).sendCount == w.sendCount + SendsIn(opts, w, ops)
    decreases |ops|
  {
    if ops != [] {
      SendsAreCounted(opts, Apply(opts, w, ops[0]), ops[1..]);
    }
  }

  /** What the operating system does not take at once is buffered. */
  function BufferedWith(w: State, bytes: nat): nat {
    if bytes <= w.room then w.buffered else w.buffered + bytes - w.room
  }

  /**
   * In every run a call to send pauses a writable transport exactly when it is a 32nd one
   * and leaves more than the threshold in the buffer, and input lets a paused one go on
   * exactly when there is no more than that.
   */
  lemma PausesEvery32nd(opts: Options, room: nat, ops: seq<Op>, packets: seq<Packet>)
    requires opts.backpressureThreshold > 0
    ensures var w := Run(opts, Opened(Created, room), ops);
            var sends := SendsIn(opts, Opened(Created, room), ops);
            var buffered := BufferedWith(w, FrameBytes(opts, packets));
            && (w.writable && w.link == Connected ==>
                  var w' := Apply(opts, w, OpSend(packets));
                  && w'.frames == w.frames + packets && w'.buffered == buffered
                  && (w'.writable <==> !((sends + 1) % 32 == 0 && buffered > opts.backpressureThreshold)))
            && (!w.writable && w.link != Absent ==>
                  (Apply(opts, w, OpInput).writable <==> w.buffered <= opts.backpressureThreshold))
  {
    SendsAreCounted(opts, Opened(Created, room), ops);
  }

  // ----- the transport object -----

  lemma FrameBytesPush(opts: Options, ps: seq<Packet>, p: Packet)
    ensures FrameBytes(opts, ps + [p]) == FrameBytes(opts, ps) + opts.byteSize(Parser.EncodePacket(p, true))
  {
    assert (ps + [p])[..|ps|] == ps;
  }

  class WS {
    const opts: Options
    var writable: bool
    var readyState: ReadyState
    var socket: Link
    var sendCount: nat
    // The Bun socket's side.
    var buffered: nat
    var room: nat
    var sent: seq<RawData>
    ghost var frames: seq<Packet>

    /** What went out on the wire is the encoding of the frames. */
    ghost predicate Valid()
      reads this
    {
      sent == EncodeFrames(frames)
    }

    ghost function Abs(): State
      reads this
    {
      State(writable, readyState, socket, sendCount, buffered, room, frames)
    }

    constructor (opts: Options)
      ensures Valid() && Abs() == Created && this.opts == opts
    {
      this.opts := opts;
      writable, readyState, socket := false, OPEN, Absent;
      sendCount, buffered, room := 0, 0, 0;
      sent, frames := [], [];
    }

    method OnOpen(room: nat)
      requires Valid()
      modifies this
      ensures Valid() && Abs() == Opened(old(Abs()), room)
    {
      socket := Connected;
      buffered, this.room := 0, room;
      writable := true;
      sendCount := 0;
    }

    /** One frame handed to the Bun socket. */
    method Transmit(encoded: RawData, ghost p: Packet)
      requires Valid() && encoded == Parser.EncodePacket(p, true)
      modifies this`buffered, this`room, this`sent, this`frames
      ensures Valid()
      ensures Abs() == Absorb(old(Abs()), opts.byteSize(encoded)).(frames := old(frames) + [p])
    {
      var n := opts.byteSize(encoded);
      if n <= room {
        room := room - n;
      } else {
        buffered, room := buffered + (n - room), 0;
      }
      sent := sent + [encoded];
      frames := frames + [p];
    }

    method CheckBackpressure()
      requires Valid()
      modifies this`writable, this`sendCount
      ensures Valid() && Abs() == CheckAndApplyBackpressure(opts, old(Abs()))
    {
      if opts.backpressureThreshold > 0 {
        sendCount := sendCount + 1;
        if sendCount % BACKPRESSURE_CHECK_INTERVAL == 0 && socket == Connected
            && buffered > opts.backpressureThreshold {
          writable := false;
        }
      }
    }

    /** Frames a batch of packets; the backpressure check runs once for the batch. */
    method SendPackets(packets: seq<Packet>)
      requires Valid()
      modifies this
      ensures Valid() && Abs() == Send(opts, old(Abs()), packets)
    {
      if !writable || socket != Connected {
        return;
      }
      ghost var before := Abs();
      for i := 0 to |packets|
        invariant Valid()
        invariant Abs() == Absorb(before, FrameBytes(opts, packets[..i])).(frames := before.frames + packets[..i])
      {
        FrameBytesPush(opts, packets[..i], packets[i]);
        assert packets[..i + 1] == packets[..i] + [packets[i]];
        var encoded := Parser.EncodePacket(packets[i], true);
        Transmit(encoded, packets[i]);
      }
      assert packets[..|packets|] == packets;
      CheckBackpressure();
    }

    /** A message framed in place, without going through the packet encoder. */
    method SendMessage(data: RawData) returns (done: bool)
      requires Valid()
      modifies this
      ensures Valid() && done == CanSend(old(Abs()))
      ensures Abs() == Send(opts, old(Abs()), [Packet(Message, Some(data))])
    {
      if !writable || socket != Connected {
        return false;
      }
      ghost var p := Packet(Message, Some(data));
      FrameBytesPush(opts, [], p);
      assert [] + [p] == [p];
      Transmit(if data.Text? then Text("4" + data.text) else data, p);
      CheckBackpressure();
      return true;
    }

    /** A frame that was encoded beforehand. */
    method SendRaw(encoded: RawData, ghost p: Packet)
      requires Valid() && encoded == Parser.EncodePacket(p, true)
      modifies this
      ensures Valid() && Abs() == Send(opts, old(Abs()), [p])
    {
      if !writable || socket != Connected {
        return;
      }
      FrameBytesPush(opts, [], p);
      assert [] + [p] == [p];
      Transmit(encoded, p);
      CheckBackpressure();
    }

    /** The first thing input does; true when a "drain" event is due. */
    method ResumeWrites() returns (drain: bool)
      requires Valid()
      modifies this`writable
      ensures Valid() && drain == Resumes(opts, old(Abs())) && Abs() == Resume(opts, old(Abs()))
    {
      if !writable && opts.backpressureThreshold > 0 && socket != Absent && buffered <= opts.backpressureThreshold {
        writable := true;
        return true;
      }
      return false;
    }

    method Disconnect()
      requires Valid()
      modifies this`socket
      ensures Valid() && Abs() == DoClose(old(Abs()))
    {
      if socket == Connected {
        socket := Disconnecting;
      }
    }

    method Close()
      requires Valid()
      modifies this`readyState, this`socket
      ensures Valid() && Abs() == Shut(old(Abs()))
    {
      if readyState == CLOSING || readyState == CLOSED {
        return;
      }
      readyState := CLOSING;
      Disconnect();
    }

    method OnCloseEvent()
      requires Valid()
      modifies this`readyState, this`socket
      ensures Valid() && Abs() == CloseEvent(old(Abs()))
    {
      socket := Disconnected;
      readyState := CLOSED;
    }

    /** Outside the program: the network takes bytes from the buffer. */
    method OnNetwork(buffered: nat, room: nat)
      requires Valid()
      modifies this`buffered, this`room
      ensures Valid() && Abs() == Drain(old(Abs()), buffered, room)
    {
      if buffered <= this.buffered {
        this.buffered, this.room := buffered, room;
      }
    }
  }
}
