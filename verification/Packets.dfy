/** The vocabulary of the wire protocol: packet types, raw data, packets. */
module Packets {

  datatype Option<+T> = None | Some(value: T)

  datatype PacketType = Open | Close | Ping | Pong | Message | Upgrade | Noop | Error

  type byte = x: int | 0 <= x < 256

  /** Packet data is text or a binary buffer. */
  datatype RawData = Text(text: string) | Binary(bytes: seq<byte>)

  datatype Packet = Packet(kind: PacketType, data: Option<RawData>)

  /** The reply to a probe. */
  const PROBE_PONG := Packet(Pong, Some(Text("probe")))

  /** Packets that steer the transports. Only the reply to a probe is a pong with data. */
  predicate IsControl(p: Packet) {
    p.kind == Noop || p.kind == Close || (p.kind == Pong && p.data.Some?)
  }

  /** The packets that belong to the session, in order. */
  function SessionPackets(ps: seq<Packet>): seq<Packet> {
    if ps == [] then []
    else (if IsControl(ps[0]) then [] else [ps[0]]) + SessionPackets(ps[1..])
  }

  lemma {:induction false} SessionPacketsConcat(ps: seq<Packet>, qs: seq<Packet>)
    ensures SessionPackets(ps + qs) == SessionPackets(ps) + SessionPackets(qs)
  {
    if ps == [] {
      assert ps + qs == qs;
    } else {
      assert (ps + qs)[1..] == ps[1..] + qs;
      SessionPacketsConcat(ps[1..], qs);
    }
  }

  /** No control packet among them. */
  predicate AllSession(ps: seq<Packet>) {
    SessionPackets(ps) == ps
  }

  lemma {:induction false} SessionPacketsShorter(ps: seq<Packet>)
    ensures |SessionPackets(ps)| <= |ps|
  {
    if ps != [] {
      SessionPacketsShorter(ps[1..]);
    }
  }

  /** Both parts of a list of session packets are such lists, and the other way round. */
  lemma AllSessionConcat(ps: seq<Packet>, qs: seq<Packet>)
    ensures AllSession(ps + qs) <==> AllSession(ps) && AllSession(qs)
  {
    SessionPacketsConcat(ps, qs);
    SessionPacketsShorter(ps);
    SessionPacketsShorter(qs);
    if AllSession(ps + qs) {
      var a, b := SessionPackets(ps), SessionPackets(qs);
      assert |a| + |b| == |ps| + |qs|;
      assert (a + b)[..|a|] == a && (ps + qs)[..|a|] == ps;
      assert (a + b)[|a|..] == b && (ps + qs)[|a|..] == qs;
    }
  }

  lemma AllSessionSingle(p: Packet)
    ensures AllSession([p]) <==> !IsControl(p)
  {
    assert [p][1..] == [];
    assert SessionPackets([p]) == (if IsControl(p) then [] else [p]) + SessionPackets([]);
  }
}
