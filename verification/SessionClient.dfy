/** What a client decodes from all responses and frames of a session, against what the session accepted. */
module SessionClient {
  import opened Packets
  import opened Transport
  import opened Session
  import opened SessionInvariants
  import opened SessionTheorems
  import Parser
  import P = PollingTransport
  import W = WebSocketTransport

  /** A client unpacks every polling response ... */
  function Unpacked(settled: seq<P.Settlement>): seq<Packet> {
    if settled == [] then []
    else
      var last := settled[|settled| - 1];
      Unpacked(settled[..|settled| - 1]) + (if last.Answered? then Parser.Unpack(Parser.Payload(last.packets)) else [])
  }

  /** ... decodes every frame ... */
  function Decoded(frames: seq<Packet>): seq<Packet> {
    if frames == [] then []
    else
      var last := frames[|frames| - 1];
      Decoded(frames[..|frames| - 1]) + [Parser.DecodePacket(Parser.EncodePacket(last, true))]
  }

  /** ... and is left with the session packets. */
  function ClientView(s: State): seq<Packet> {
    (if s.polling.Some? then SessionPackets(Unpacked(s.polling.value.settled)) else []) +
    (if s.ws.Some? then SessionPackets(Decoded(s.ws.value.frames)) else [])
  }

  lemma NormalizeOne(p: Packet)
    requires OnWire(p)
    ensures SessionPackets([Parser.Normalize(p)]) == Parser.NormalizeAll(SessionPackets([p]))
  {
    assert [p][1..] == [] && [Parser.Normalize(p)][1..] == [];
    if !IsControl(p) {
      assert SessionPackets([p]) == [p];
    }
  }

  /** Dropping control packets commutes with losing the difference between "" and no data. */
  lemma {:induction false} NormalizeSession(ps: seq<Packet>)
    requires AllOnWire(ps)
    ensures SessionPackets(Parser.NormalizeAll(ps)) == Parser.NormalizeAll(SessionPackets(ps))
  {
    if ps != [] {
      var before, p := ps[..|ps| - 1], ps[|ps| - 1];
      NormalizeSession(before);
      NormalizeOne(p);
      assert ps == before + [p];
      Parser.NormalizeAllConcat(before, [p]);
      SessionPacketsConcat(before, [p]);
      SessionPacketsConcat(Parser.NormalizeAll(before), [Parser.Normalize(p)]);
      Parser.NormalizeAllConcat(SessionPackets(before), SessionPackets([p]));
      assert Parser.NormalizeAll([p]) == [Parser.Normalize(p)];
    }
  }

  lemma {:induction false} DecodedFrames(frames: seq<Packet>)
    requires AllOnWire(frames)
    ensures Decoded(frames) == Parser.NormalizeAll(frames)
  {
    if frames != [] {
      var before, p := frames[..|frames| - 1], frames[|frames| - 1];
      DecodedFrames(before);
      Parser.PacketRoundTrip(p, true);
      assert frames == before + [p];
      Parser.NormalizeAllConcat(before, [p]);
      assert Parser.NormalizeAll([p]) == [Parser.Normalize(p)];
    }
  }

  lemma {:induction false} OnWireIsEncodable(ps: seq<Packet>)
    requires AllOnWire(ps)
    ensures Parser.AllEncodable(ps)
    ensures Parser.AllSeparable(SessionPackets(ps)) ==> Parser.AllSeparable(ps)
  {
    if ps != [] {
      var before, p := ps[..|ps| - 1], ps[|ps| - 1];
      OnWireIsEncodable(before);
      assert ps == before + [p];
      SessionPacketsConcat(before, [p]);
      assert [p][1..] == [];
      Parser.AllSeparableConcat(SessionPackets(before), SessionPackets([p]));
      Parser.AllSeparableConcat(before, [p]);
      Parser.AllEncodableConcat(before, [p]);
    }
  }

  lemma {:induction false} UnpackedAnswers(settled: seq<P.Settlement>)
    requires GoodAnswers(settled) && Parser.AllSeparable(Answers(settled))
    ensures Unpacked(settled) == Parser.NormalizeAll(Answers(settled))
    ensures AllOnWire(Answers(settled))
  {
    if settled != [] {
      var before, last := settled[..|settled| - 1], settled[|settled| - 1];
      var ps := if last.Answered? then last.packets else [];
      assert Answers(settled) == Answers(before) + ps;
      Parser.AllSeparableConcat(Answers(before), ps);
      UnpackedAnswers(before);
      Parser.NormalizeAllConcat(Answers(before), ps);
      AllOnWireConcat(Answers(before), ps);
      if last.Answered? {
        OnWireIsEncodable(ps);
        Parser.PayloadRoundTrip(ps);
      }
    }
  }

  lemma {:induction false} AnswersOnWire(settled: seq<P.Settlement>)
    requires GoodAnswers(settled)
    ensures AllOnWire(Answers(settled))
  {
    if settled != [] {
      var before, last := settled[..|settled| - 1], settled[|settled| - 1];
      AnswersOnWire(before);
      AllOnWireConcat(Answers(before), if last.Answered? then last.packets else []);
    }
  }

  lemma PolledView(p: P.State)
    requires GoodAnswers(p.settled) && Parser.AllSeparable(Polled(Some(p)))
    ensures SessionPackets(Unpacked(p.settled)) == Parser.NormalizeAll(Polled(Some(p)))
  {
    AnswersOnWire(p.settled);
    OnWireIsEncodable(Answers(p.settled));
    UnpackedAnswers(p.settled);
    NormalizeSession(Answers(p.settled));
  }

  lemma FramedView(w: W.State)
    requires AllOnWire(w.frames)
    ensures SessionPackets(Decoded(w.frames)) == Parser.NormalizeAll(Framed(Some(w)))
  {
    DecodedFrames(w.frames);
    NormalizeSession(w.frames);
  }

  // ----- a separator inside a text -----

  /** The two lists part at some place where both go on. */
  predicate Diverges(x: seq<Packet>, y: seq<Packet>) {
    x != [] && y != [] && (x[0] != y[0] || Diverges(x[1..], y[1..]))
  }

  lemma {:induction false} DivergesAppend(x: seq<Packet>, y: seq<Packet>, a: seq<Packet>, b: seq<Packet>)
    requires Diverges(x, y)
    ensures Diverges(x + a, y + b)
  {
    if x[0] == y[0] {
      DivergesAppend(x[1..], y[1..], a, b);
      assert (x + a)[1..] == x[1..] + a && (y + b)[1..] == y[1..] + b;
    }
  }

  lemma {:induction false} DivergesBehind(z: seq<Packet>, x: seq<Packet>, y: seq<Packet>)
    requires Diverges(x, y)
    ensures Diverges(z + x, z + y)
  {
    if z == [] {
      assert z + x == x && z + y == y;
    } else {
      DivergesBehind(z[1..], x, y);
      assert (z + x)[1..] == z[1..] + x && (z + y)[1..] == z[1..] + y;
    }
  }

  lemma {:induction false} DivergesIsNoPrefix(x: seq<Packet>, y: seq<Packet>, rest: seq<Packet>)
    requires Diverges(x, y)
    ensures !(x <= y + rest)
  {
    if x[0] == y[0] {
      DivergesIsNoPrefix(x[1..], y[1..], rest);
      assert (y + rest)[1..] == y[1..] + rest;
    }
  }

  /** A text cut short keeps its packet type: what was a session packet still is one. */
  lemma CutStaysSession(p: Packet, rest: string)
    requires OnWire(p) && !Parser.Separable(p)
    ensures var q := Parser.DecodePieces(Parser.Split(Parser.EncodeText(p) + rest));
            q != [] && q[0] != Parser.Normalize(p) && !IsControl(q[0]) && !IsControl(p)
  {
    var e := Parser.EncodeText(p);
    Parser.CutShort(p, rest);
    Parser.EncodeTextIsClean(p);
    Parser.FirstPiece(e, rest);
    CutDecodes(p, Parser.FirstSeparator(e));
  }

  lemma CutDecodes(p: Packet, k: nat)
    requires OnWire(p) && !Parser.Separable(p) && k < |Parser.EncodeText(p)|
    requires Parser.EncodeText(p)[k] == Parser.SEPARATOR
    ensures var q := Parser.DecodePacket(Text(Parser.EncodeText(p)[..k])); q.kind == p.kind && !IsControl(q)
  {
    assert Parser.EncodeText(p)[0] == Parser.TypeCode(p.kind)[0] != Parser.SEPARATOR;
    assert Parser.EncodeText(p)[..k][0] == Parser.EncodeText(p)[0];
  }

  lemma SessionPacketsCons(p: Packet, ps: seq<Packet>)
    ensures SessionPackets([p] + ps) == (if IsControl(p) then [] else [p]) + SessionPackets(ps)
  {
    assert ([p] + ps)[1..] == ps;
  }

  lemma NormalizeSessionCons(p: Packet, ps: seq<Packet>)
    requires OnWire(p)
    ensures Parser.NormalizeAll(SessionPackets([p] + ps)) ==
            (if IsControl(p) then [] else [Parser.Normalize(p)]) + Parser.NormalizeAll(SessionPackets(ps))
    ensures IsControl(Parser.Normalize(p)) <==> IsControl(p)
  {
    SessionPacketsCons(p, ps);
    if !IsControl(p) {
      assert ([p] + SessionPackets(ps))[1..] == SessionPackets(ps);
    } else {
      assert [] + SessionPackets(ps) == SessionPackets(ps);
    }
  }

  lemma PayloadStarts(ps: seq<Packet>) returns (rest: string)
    requires ps != []
    ensures Parser.Payload(ps) == Parser.EncodeText(ps[0]) + rest
  {
    Parser.PayloadCons(ps);
    rest := Parser.Payload(ps)[|Parser.EncodeText(ps[0])|..];
  }

  lemma DirtyHeadDiverges(ps: seq<Packet>)
    requires ps != [] && OnWire(ps[0]) && !Parser.Separable(ps[0])
    ensures Diverges(SessionPackets(Parser.Unpack(Parser.Payload(ps))), Parser.NormalizeAll(SessionPackets(ps)))
  {
    var rest := PayloadStarts(ps);
    CutStaysSession(ps[0], rest);
    HeadsDiverge(ps, Parser.Unpack(Parser.Payload(ps)));
  }

  lemma HeadsDiverge(ps: seq<Packet>, q: seq<Packet>)
    requires ps != [] && OnWire(ps[0]) && q != []
    requires !IsControl(ps[0]) && !IsControl(q[0]) && q[0] != Parser.Normalize(ps[0])
    ensures Diverges(SessionPackets(q), Parser.NormalizeAll(SessionPackets(ps)))
  {
    NormalizeSessionCons(ps[0], ps[1..]);
    assert ps == [ps[0]] + ps[1..];
    SessionPacketsCons(q[0], q[1..]);
    assert q == [q[0]] + q[1..];
  }

  predicate AllWire(ps: seq<Packet>) {
    ps == [] || (OnWire(ps[0]) && AllWire(ps[1..]))
  }

  lemma {:induction false} AllOnWireForward(ps: seq<Packet>)
    requires AllOnWire(ps)
    ensures AllWire(ps)
  {
    if ps != [] {
      assert ps == [ps[0]] + ps[1..];
      AllOnWireConcat([ps[0]], ps[1..]);
      AllOnWireSingle(ps[0]);
      AllOnWireForward(ps[1..]);
    }
  }

  /** A payload with a separator in a text is read differently, from the first such text on. */
  lemma {:induction false} DirtyPayloadDiverges(ps: seq<Packet>)
    requires AllWire(ps) && !Parser.AllSeparable(ps)
    ensures Diverges(SessionPackets(Parser.Unpack(Parser.Payload(ps))), Parser.NormalizeAll(SessionPackets(ps)))
  {
    if !Parser.Separable(ps[0]) {
      DirtyHeadDiverges(ps);
    } else {
      var p, rest := ps[0], ps[1..];
      DirtyPayloadDiverges(rest);
      Parser.PayloadCons(ps);
      Parser.UnpackCons(p, Parser.Payload(rest));
      NormalizeSessionCons(p, rest);
      assert ps == [p] + rest;
      SessionPacketsCons(Parser.Normalize(p), Parser.Unpack(Parser.Payload(rest)));
      DivergesBehind(if IsControl(p) then [] else [Parser.Normalize(p)],
                     SessionPackets(Parser.Unpack(Parser.Payload(rest))), Parser.NormalizeAll(SessionPackets(rest)));
      ControlNormal(p);
    }
  }

  lemma ControlNormal(p: Packet)
    requires OnWire(p)
    ensures IsControl(p) ==> Parser.Normalize(p) == p
  {}

  /** Responses read one after the other. */
  lemma {:induction false} DirtyPollsDiverge(settled: seq<P.Settlement>)
    requires GoodAnswers(settled) && !Parser.AllSeparable(Answers(settled))
    ensures Diverges(SessionPackets(Unpacked(settled)), Parser.NormalizeAll(SessionPackets(Answers(settled))))
  {
    if settled != [] {
      var before, last := settled[..|settled| - 1], settled[|settled| - 1];
      var ps := if last.Answered? then last.packets else [];
      var read := if last.Answered? then Parser.Unpack(Parser.Payload(ps)) else [];
      assert Answers(settled) == Answers(before) + ps && Unpacked(settled) == Unpacked(before) + read;
      Parser.AllSeparableConcat(Answers(before), ps);
      SessionPacketsConcat(Answers(before), ps);
      SessionPacketsConcat(Unpacked(before), read);
      Parser.NormalizeAllConcat(SessionPackets(Answers(before)), SessionPackets(ps));
      if !Parser.AllSeparable(Answers(before)) {
        DirtyPollsDiverge(before);
        DivergesAppend(SessionPackets(Unpacked(before)), Parser.NormalizeAll(SessionPackets(Answers(before))),
                       SessionPackets(read), Parser.NormalizeAll(SessionPackets(ps)));
      } else {
        CleanPolls(before);
        AllOnWireForward(ps);
        DirtyPayloadDiverges(ps);
        DivergesBehind(SessionPackets(Unpacked(before)), SessionPackets(read), Parser.NormalizeAll(SessionPackets(ps)));
      }
    }
  }

  lemma CleanPolls(settled: seq<P.Settlement>)
    requires GoodAnswers(settled) && Parser.AllSeparable(Answers(settled))
    ensures SessionPackets(Unpacked(settled)) == Parser.NormalizeAll(SessionPackets(Answers(settled)))
  {
    UnpackedAnswers(settled);
    NormalizeSession(Answers(settled));
  }

  lemma PolledDiverges(p: P.State)
    requires GoodAnswers(p.settled) && !Parser.AllSeparable(Polled(Some(p)))
    ensures Diverges(SessionPackets(Unpacked(p.settled)), Parser.NormalizeAll(Polled(Some(p))))
  {
    SeparableSession(Answers(p.settled));
    DirtyPollsDiverge(p.settled);
  }

  lemma {:induction false} SeparableSession(ps: seq<Packet>)
    ensures Parser.AllSeparable(ps) ==> Parser.AllSeparable(SessionPackets(ps))
  {
    if ps != [] {
      SeparableSession(ps[1..]);
      Parser.AllSeparableConcat(if IsControl(ps[0]) then [] else [ps[0]], SessionPackets(ps[1..]));
    }
  }

  // ----- the theorem -----

  lemma CleanView(s: State)
    requires Sound(s.polling, s.ws) && Parser.AllSeparable(Polled(s.polling))
    ensures ClientView(s) == Parser.NormalizeAll(Delivered(s))
  {
    if s.polling.Some? {
      PolledView(s.polling.value);
    }
    if s.ws.Some? {
      FramedView(s.ws.value);
    }
    Parser.NormalizeAllConcat(Polled(s.polling), Framed(s.ws));
  }

  lemma DirtyView(s: State)
    requires Sound(s.polling, s.ws) && !Parser.AllSeparable(Polled(s.polling))
    ensures Diverges(ClientView(s), Parser.NormalizeAll(Delivered(s)))
  {
    var p := s.polling.value;
    PolledDiverges(p);
    Parser.NormalizeAllConcat(Polled(s.polling), Framed(s.ws));
    DivergesAppend(SessionPackets(Unpacked(p.settled)), Parser.NormalizeAll(Polled(s.polling)),
                   if s.ws.Some? then SessionPackets(Decoded(s.ws.value.frames)) else [],
                   Parser.NormalizeAll(Framed(s.ws)));
  }

  lemma ViewIsDelivered(s: State)
    requires Sound(s.polling, s.ws)
    ensures ClientView(s) == Parser.NormalizeAll(Delivered(s)) <==> Parser.AllSeparable(Polled(s.polling))
  {
    if Parser.AllSeparable(Polled(s.polling)) {
      CleanView(s);
    } else {
      DirtyView(s);
      DivergesIsNoPrefix(ClientView(s), Parser.NormalizeAll(Delivered(s)), []);
      assert Parser.NormalizeAll(Delivered(s)) + [] == Parser.NormalizeAll(Delivered(s));
    }
  }

  lemma ViewIsAccepted(s: State, rest: seq<Packet>)
    requires Sound(s.polling, s.ws)
    ensures ClientView(s) <= Parser.NormalizeAll(Delivered(s) + rest) <==> Parser.AllSeparable(Polled(s.polling))
  {
    Parser.NormalizeAllConcat(Delivered(s), rest);
    if Parser.AllSeparable(Polled(s.polling)) {
      CleanView(s);
    } else {
      DirtyView(s);
      DivergesIsNoPrefix(ClientView(s), Parser.NormalizeAll(Delivered(s)), Parser.NormalizeAll(rest));
    }
  }

  predicate SeesAccepted(s: State) {
    var clean := Parser.AllSeparable(Polled(s.polling));
    && (ClientView(s) == Parser.NormalizeAll(Delivered(s)) <==> clean)
    && (ClientView(s) <= Parser.NormalizeAll(s.out.accepted) <==> clean)
    && (clean && s.out.lost == [] && s.out.buffer == [] ==> ClientView(s) == Parser.NormalizeAll(s.out.accepted))
  }

  lemma ClientOf(s: State)
    requires Sound(s.polling, s.ws) && Ledger(s.out, Delivered(s))
    ensures SeesAccepted(s)
  {
    LedgerPrefix(s.out, Delivered(s));
    var rest := s.out.accepted[|Delivered(s)|..];
    assert s.out.accepted == Delivered(s) + rest;
    ViewIsDelivered(s);
    ViewIsAccepted(s, rest);
    assert Delivered(s) + [] == Delivered(s);
  }

  /**
   * End to end: what the client decodes is what was delivered, and so a prefix of what was
   * accepted, up to "" and no data being alike, exactly when no text with a record separator
   * went out by polling.
   */
  lemma ClientSeesAccepted(opts: Options, b: Birth, steps: seq<Step>)
    ensures var s := Life(opts, b, steps);
            var clean := Parser.AllSeparable(Polled(s.polling));
            && (ClientView(s) == Parser.NormalizeAll(Delivered(s)) <==> clean)
            && (ClientView(s) <= Parser.NormalizeAll(s.out.accepted) <==> clean)
            && (clean && s.out.lost == [] && s.out.buffer == [] ==>
               ClientView(s) == Parser.NormalizeAll(s.out.accepted))
  {
    LifeInv(opts, b, steps);
    ClientOf(Life(opts, b, steps));
  }
}
