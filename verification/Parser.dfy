/** The wire codec: packets to frames, lists of packets to polling payloads, and back. */
module Parser {
  import opened Packets
  import Base64

  /** The record separator between the packets of a payload. */
  const SEPARATOR: char := 30 as char

  /** The table lookup for "error" misses, and string concatenation prints the miss. */
  function TypeCode(t: PacketType): string {
    match t
    case Open => "0"
    case Close => "1"
    case Ping => "2"
    case Pong => "3"
    case Message => "4"
    case Upgrade => "5"
    case Noop => "6"
    case Error => "undefined"
  }

  function TypeOf(c: char): Option<PacketType> {
    match c
    case '0' => Some(Open)
    case '1' => Some(Close)
    case '2' => Some(Ping)
    case '3' => Some(Pong)
    case '4' => Some(Message)
    case '5' => Some(Upgrade)
    case '6' => Some(Noop)
    case _ => None
  }

  const ERROR_PACKET := Packet(Error, Some(Text("parser error")))

  function EncodePacket(p: Packet, supportsBinary: bool): RawData {
    match p.data
    case Some(Binary(b)) => if supportsBinary then Binary(b) else Text("b" + Base64.Encode(b))
    case Some(Text(t)) => Text(TypeCode(p.kind) + t)
    case None => Text(TypeCode(p.kind))
  }

  function DecodePacket(encoded: RawData): Packet {
    match encoded
    case Binary(b) => Packet(Message, Some(encoded))
    case Text(s) =>
      if s == "" then ERROR_PACKET
      else if s[0] == 'b' then Packet(Message, Some(Binary(Base64.Decode(s[1..]))))
      else
        match TypeOf(s[0])
        case None => ERROR_PACKET
        case Some(t) => if |s| > 1 then Packet(t, Some(Text(s[1..]))) else Packet(t, None)
  }

  /** What the decoder can recover: empty text and absent data look the same on the wire. */
  function Normalize(p: Packet): Packet {
    if p.data == Some(Text("")) then p.(data := None) else p
  }

  /** Packets the wire format has a faithful form for. */
  predicate Encodable(p: Packet) {
    p.kind != Error && (p.data.Some? && p.data.value.Binary? ==> p.kind == Message)
  }

  /** The packet fits between two separators. */
  predicate Separable(p: Packet) {
    p.data.Some? && p.data.value.Text? ==> SEPARATOR !in p.data.value.text
  }

  /** One packet survives the trip, over a binary or a text-only channel. */
  lemma PacketRoundTrip(p: Packet, supportsBinary: bool)
    requires Encodable(p)
    ensures DecodePacket(EncodePacket(p, supportsBinary)) == Normalize(p)
  {
    match p.data
    case Some(Binary(b)) => {
      Base64.RoundTrip(b);
      assert ("b" + Base64.Encode(b))[1..] == Base64.Encode(b);
    }
    case Some(Text(t)) => assert (TypeCode(p.kind) + t)[1..] == t;
    case None =>
  }

  /** The frames of the protocol's own packets, and frames that are none. */
  lemma KnownFrames()
    ensures EncodePacket(Packet(Open, Some(Text("{}"))), true) == Text("0{}")
    ensures DecodePacket(Text("1")) == Packet(Close, None)
    ensures DecodePacket(Text("2probe")) == Packet(Ping, Some(Text("probe")))
    ensures EncodePacket(Packet(Ping, None), true) == Text("2") && EncodePacket(Packet(Pong, None), true) == Text("3")
    ensures EncodePacket(PROBE_PONG, true) == Text("3probe") && DecodePacket(Text("3")) == Packet(Pong, None)
    ensures DecodePacket(Text("5")) == Packet(Upgrade, None) && EncodePacket(Packet(Noop, None), false) == Text("6")
    ensures DecodePacket(Text("")) == DecodePacket(Text("7")) == ERROR_PACKET && ERROR_PACKET.kind == Error
    ensures EncodePacket(Packet(Message, Some(Binary([102]))), false) == Text("bZg==")
  {
    Base64.TestVectors();
    assert "2probe"[1..] == "probe";
  }

  // ----- payloads -----

  function Join(pieces: seq<string>): string {
    if pieces == [] then ""
    else if |pieces| == 1 then pieces[0]
    else pieces[0] + [SEPARATOR] + Join(pieces[1..])
  }

  function FirstSeparator(s: string): (i: nat)
    requires SEPARATOR in s
    ensures i < |s| && s[i] == SEPARATOR && SEPARATOR !in s[..i]
  {
    if s[0] == SEPARATOR then 0
    else
      var i := 1 + FirstSeparator(s[1..]);
      assert s[..i] == [s[0]] + s[1..][..i - 1];
      i
  }

  function Split(s: string): seq<string>
    decreases |s|
  {
    if SEPARATOR !in s then [s]
    else
      var i := FirstSeparator(s);
      [s[..i]] + Split(s[i + 1..])
  }

  function EncodeText(p: Packet): string {
    EncodePacket(p, false).text
  }

  function EncodeTexts(ps: seq<Packet>): seq<string> {
    if ps == [] then [] else [EncodeText(ps[0])] + EncodeTexts(ps[1..])
  }

  /** Decoding stops after the first packet that is not understood. */
  function DecodePieces(pieces: seq<string>): seq<Packet> {
    if pieces == [] then []
    else
      var p := DecodePacket(Text(pieces[0]));
      if p.kind == Error then [p] else [p] + DecodePieces(pieces[1..])
  }

  /** The pieces are decoded one by one, up to and including the first that is not understood. */
  lemma {:induction false} DecodesUpToError(pieces: seq<string>)
    ensures var ps := DecodePieces(pieces);
            && |ps| <= |pieces|
            && (forall i | 0 <= i < |ps| :: ps[i] == DecodePacket(Text(pieces[i])))
            && (forall i | 0 <= i < |ps| - 1 :: ps[i].kind != Error)
            && (|ps| < |pieces| ==> ps != [] && ps[|ps| - 1].kind == Error)
  {
    if pieces != [] && DecodePacket(Text(pieces[0])).kind != Error {
      DecodesUpToError(pieces[1..]);
    }
  }

  function Payload(ps: seq<Packet>): string {
    Join(EncodeTexts(ps))
  }

  function Unpack(payload: string): seq<Packet> {
    DecodePieces(Split(payload))
  }

  function NormalizeAll(ps: seq<Packet>): seq<Packet> {
    if ps == [] then [] else [Normalize(ps[0])] + NormalizeAll(ps[1..])
  }

  lemma {:induction false} EncodeTextsConcat(ps: seq<Packet>, qs: seq<Packet>)
    ensures EncodeTexts(ps + qs) == EncodeTexts(ps) + EncodeTexts(qs)
  {
    if ps == [] {
      assert ps + qs == qs;
    } else {
      assert (ps + qs)[1..] == ps[1..] + qs;
      EncodeTextsConcat(ps[1..], qs);
    }
  }

  /** Encodes a list of packets; one packet alone skips the list and the join. */
  method EncodePayload(packets: seq<Packet>) returns (payload: string)
    ensures payload == Payload(packets)
  {
    if |packets| == 1 {
      assert EncodeTexts(packets) == [EncodeText(packets[0])];
      return EncodePacket(packets[0], false).text;
    }
    var encodedPackets: seq<string> := [];
    for i := 0 to |packets|
      invariant encodedPackets == EncodeTexts(packets[..i])
    {
      EncodeTextsConcat(packets[..i], [packets[i]]);
      assert packets[..i + 1] == packets[..i] + [packets[i]];
      encodedPackets := encodedPackets + [EncodePacket(packets[i], false).text];
    }
    assert packets[..|packets|] == packets;
    payload := Join(encodedPackets);
  }

  /** Decodes a payload, leaving the loop at the first error packet. */
  method DecodePayload(encodedPayload: string) returns (packets: seq<Packet>)
    ensures packets == Unpack(encodedPayload)
  {
    var encodedPackets := Split(encodedPayload);
    packets := [];
    var i := 0;
    while i < |encodedPackets|
      invariant 0 <= i <= |encodedPackets|
      invariant packets + DecodePieces(encodedPackets[i..]) == Unpack(encodedPayload)
    {
      var decodedPacket := DecodePacket(Text(encodedPackets[i]));
      assert encodedPackets[i..][1..] == encodedPackets[i + 1..];
      packets := packets + [decodedPacket];
      if decodedPacket.kind == Error {
        break;
      }
      i := i + 1;
    }
  }

  // ----- the laws of splitting and joining -----

  predicate AllClean(pieces: seq<string>) {
    pieces == [] || (SEPARATOR !in pieces[0] && AllClean(pieces[1..]))
  }

  lemma JoinCons(piece: string, pieces: seq<string>)
    requires pieces != []
    ensures Join([piece] + pieces) == piece + [SEPARATOR] + Join(pieces)
  {
    assert ([piece] + pieces)[1..] == pieces;
  }

  lemma {:induction false} JoinSplit(s: string)
    ensures Join(Split(s)) == s
    ensures Split(s) != []
    decreases |s|
  {
    if SEPARATOR in s {
      var i := FirstSeparator(s);
      JoinSplit(s[i + 1..]);
      JoinCons(s[..i], Split(s[i + 1..]));
      assert s == s[..i] + [SEPARATOR] + s[i + 1..];
    }
  }

  lemma {:induction false} SplitIsClean(s: string)
    ensures AllClean(Split(s))
    decreases |s|
  {
    if SEPARATOR in s {
      SplitIsClean(s[FirstSeparator(s) + 1..]);
      assert Split(s)[1..] == Split(s[FirstSeparator(s) + 1..]);
    }
  }

  lemma {:induction false} FirstSeparatorIs(s: string, k: nat)
    requires k < |s| && s[k] == SEPARATOR && SEPARATOR !in s[..k]
    ensures FirstSeparator(s) == k
  {
    if k > 0 {
      assert s[..k][0] == s[0] && s[1..][..k - 1] == s[..k][1..];
      FirstSeparatorIs(s[1..], k - 1);
    }
  }

  /** The first piece of a string that starts with clean text and a separator. */
  lemma SplitFirst(piece: string, rest: string)
    requires SEPARATOR !in piece
    ensures Split(piece + [SEPARATOR] + rest) == [piece] + Split(rest)
  {
    var s := piece + [SEPARATOR] + rest;
    assert s[..|piece|] == piece;
    FirstSeparatorIs(s, |piece|);
    assert s[|piece| + 1..] == rest;
  }

  lemma {:induction false} SplitJoin(pieces: seq<string>)
    requires pieces != [] && AllClean(pieces)
    ensures Split(Join(pieces)) == pieces
  {
    if |pieces| > 1 {
      SplitFirst(pieces[0], Join(pieces[1..]));
      SplitJoin(pieces[1..]);
    }
  }

  // ----- the round trips -----

  /** Packet types print without a separator, and so does base64. */
  lemma EncodeTextIsClean(p: Packet)
    requires Encodable(p)
    ensures SEPARATOR in EncodeText(p) <==> !Separable(p)
  {
    match p.data
    case Some(Binary(b)) => Base64.Alphabet(b);
    case Some(Text(t)) =>
      assert EncodeText(p)[1..] == t && EncodeText(p)[0] != SEPARATOR;
    case None =>
  }

  predicate AllEncodable(ps: seq<Packet>) {
    ps == [] || (Encodable(ps[0]) && AllEncodable(ps[1..]))
  }

  predicate AllSeparable(ps: seq<Packet>) {
    ps == [] || (Separable(ps[0]) && AllSeparable(ps[1..]))
  }

  lemma {:induction false} NormalizeAllConcat(ps: seq<Packet>, qs: seq<Packet>)
    ensures NormalizeAll(ps + qs) == NormalizeAll(ps) + NormalizeAll(qs)
  {
    if ps == [] {
      assert ps + qs == qs;
    } else {
      assert (ps + qs)[1..] == ps[1..] + qs;
      NormalizeAllConcat(ps[1..], qs);
    }
  }

  lemma {:induction false} AllSeparableConcat(ps: seq<Packet>, qs: seq<Packet>)
    ensures AllSeparable(ps + qs) <==> AllSeparable(ps) && AllSeparable(qs)
  {
    if ps == [] {
      assert ps + qs == qs;
    } else {
      assert (ps + qs)[1..] == ps[1..] + qs;
      AllSeparableConcat(ps[1..], qs);
    }
  }

  lemma {:induction false} AllEncodableConcat(ps: seq<Packet>, qs: seq<Packet>)
    ensures AllEncodable(ps + qs) <==> AllEncodable(ps) && AllEncodable(qs)
  {
    if ps == [] {
      assert ps + qs == qs;
    } else {
      assert (ps + qs)[1..] == ps[1..] + qs;
      AllEncodableConcat(ps[1..], qs);
    }
  }

  lemma {:induction false} CleanRoundTrip(ps: seq<Packet>)
    requires AllEncodable(ps) && AllSeparable(ps)
    ensures AllClean(EncodeTexts(ps))
    ensures |EncodeTexts(ps)| == |ps|
    ensures DecodePieces(EncodeTexts(ps)) == NormalizeAll(ps)
  {
    if ps != [] {
      EncodeTextIsClean(ps[0]);
      PacketRoundTrip(ps[0], false);
      CleanRoundTrip(ps[1..]);
      assert EncodeTexts(ps)[1..] == EncodeTexts(ps[1..]);
    }
  }

  /** The first piece ends at the first separator, wherever the text goes on. */
  lemma FirstPiece(e: string, rest: string)
    requires SEPARATOR in e
    ensures Split(e + rest)[0] == e[..FirstSeparator(e)]
  {
    var k := FirstSeparator(e);
    assert (e + rest)[..k] == e[..k];
    FirstSeparatorIs(e + rest, k);
  }

  /** A separator inside a text cuts the packet short when it is read back. */
  lemma CutShort(p: Packet, rest: string)
    requires Encodable(p) && !Separable(p)
    ensures DecodePieces(Split(EncodeText(p) + rest))[0] != Normalize(p)
  {
    var e := EncodeText(p);
    EncodeTextIsClean(p);
    var k := FirstSeparator(e);
    FirstPiece(e, rest);
    DecodedIsShorter(p, e[..k]);
    assert DecodePieces(Split(e + rest))[0] == DecodePacket(Text(e[..k]));
  }

  /** Less text decodes to less data. */
  lemma DecodedIsShorter(p: Packet, piece: string)
    requires Encodable(p) && p.data.Some? && p.data.value.Text? && p.data.value.text != ""
    requires 0 < |piece| < |EncodeText(p)| && piece == EncodeText(p)[..|piece|]
    ensures DecodePacket(Text(piece)) != Normalize(p)
  {
    assert piece[0] == EncodeText(p)[0] == TypeCode(p.kind)[0];
  }

  /** The payload of a non-empty list, first packet apart. */
  lemma PayloadCons(ps: seq<Packet>)
    requires ps != []
    ensures |ps| == 1 ==> Payload(ps) == EncodeText(ps[0])
    ensures |ps| > 1 ==> Payload(ps) == EncodeText(ps[0]) + [SEPARATOR] + Payload(ps[1..])
  {
    if |ps| > 1 {
      JoinCons(EncodeText(ps[0]), EncodeTexts(ps[1..]));
    } else {
      assert EncodeTexts(ps) == [EncodeText(ps[0])];
    }
  }

  /** Reading back a faithful packet and a separator in front of a payload. */
  lemma UnpackCons(p: Packet, rest: string)
    requires Encodable(p) && Separable(p)
    ensures Unpack(EncodeText(p) + [SEPARATOR] + rest) == [Normalize(p)] + Unpack(rest)
  {
    EncodeTextIsClean(p);
    SplitFirst(EncodeText(p), rest);
    PacketRoundTrip(p, false);
    DecodePiecesCons(EncodeText(p), Split(rest));
  }

  lemma DecodePiecesCons(piece: string, pieces: seq<string>)
    requires DecodePacket(Text(piece)).kind != Error
    ensures DecodePieces([piece] + pieces) == [DecodePacket(Text(piece))] + DecodePieces(pieces)
  {
    assert ([piece] + pieces)[1..] == pieces;
  }

  lemma DirtyHead(ps: seq<Packet>)
    requires ps != [] && Encodable(ps[0]) && !Separable(ps[0])
    ensures Unpack(Payload(ps))[0] != Normalize(ps[0])
  {
    var rest := if |ps| == 1 then "" else [SEPARATOR] + Payload(ps[1..]);
    PayloadCons(ps);
    assert Payload(ps) == EncodeText(ps[0]) + rest;
    CutShort(ps[0], rest);
  }

  lemma ConsDiffers(p: Packet, x: seq<Packet>, y: seq<Packet>)
    requires x != y
    ensures [p] + x != [p] + y
  {
    assert ([p] + x)[1..] == x && ([p] + y)[1..] == y;
  }

  lemma {:induction false} DirtyRoundTrip(ps: seq<Packet>)
    requires AllEncodable(ps) && !AllSeparable(ps)
    ensures Unpack(Payload(ps)) != NormalizeAll(ps)
  {
    if !Separable(ps[0]) {
      DirtyHead(ps);
    } else {
      DirtyRoundTrip(ps[1..]);
      PayloadCons(ps);
      UnpackCons(ps[0], Payload(ps[1..]));
      ConsDiffers(Normalize(ps[0]), Unpack(Payload(ps[1..])), NormalizeAll(ps[1..]));
    }
  }

  /**
   * Reading back a printed payload gives the packets that were printed, up to empty
   * text becoming absent data, exactly when there is something to print and no text
   * holds the separator.
   */
  lemma PayloadRoundTrip(ps: seq<Packet>)
    requires AllEncodable(ps)
    ensures Unpack(Payload(ps)) == NormalizeAll(ps) <==> ps != [] && AllSeparable(ps)
  {
    if ps == [] {
      assert Split("") == [""];
      assert Unpack(Payload(ps)) == [ERROR_PACKET];
    } else if AllSeparable(ps) {
      CleanRoundTrip(ps);
      SplitJoin(EncodeTexts(ps));
    } else {
      DirtyRoundTrip(ps);
    }
  }

  /** A piece prints back as itself unless it is base64 that an encoder would write differently. */
  predicate Canonical(piece: string) {
    piece != "" && piece[0] == 'b' ==> Base64.Encode(Base64.Decode(piece[1..])) == piece[1..]
  }

  lemma ReprintPiece(piece: string)
    requires DecodePacket(Text(piece)).kind != Error
    ensures EncodeText(DecodePacket(Text(piece))) == piece <==> Canonical(piece)
  {
    assert piece == [piece[0]] + piece[1..];
    var p := DecodePacket(Text(piece));
    if piece[0] == 'b' {
      assert EncodeText(p)[1..] == Base64.Encode(Base64.Decode(piece[1..]));
    } else {
      assert TypeCode(TypeOf(piece[0]).value) == [piece[0]];
    }
  }

  lemma ReprintIsClean(piece: string)
    requires SEPARATOR !in piece && DecodePacket(Text(piece)).kind != Error
    ensures SEPARATOR !in EncodeText(DecodePacket(Text(piece)))
  {
    var p := DecodePacket(Text(piece));
    if piece[0] == 'b' {
      EncodeTextIsClean(p);
    } else {
      assert piece == [piece[0]] + piece[1..];
      assert TypeCode(TypeOf(piece[0]).value) == [piece[0]];
    }
  }

  predicate AllCanonical(pieces: seq<string>) {
    pieces == [] || (Canonical(pieces[0]) && AllCanonical(pieces[1..]))
  }

  /** No piece was given up on. */
  predicate Understood(ps: seq<Packet>) {
    ps == [] || (ps[0].kind != Error && Understood(ps[1..]))
  }

  predicate AllText(ps: seq<Packet>) {
    ps == [] || ((ps[0].data.Some? ==> ps[0].data.value.Text?) && AllText(ps[1..]))
  }

  /** One understood piece in front. */
  lemma DecodeCons(pieces: seq<string>)
    requires pieces != [] && Understood(DecodePieces(pieces))
    ensures var p := DecodePacket(Text(pieces[0]));
            && p.kind != Error
            && DecodePieces(pieces) == [p] + DecodePieces(pieces[1..])
            && Understood(DecodePieces(pieces[1..]))
            && EncodeTexts(DecodePieces(pieces)) == [EncodeText(p)] + EncodeTexts(DecodePieces(pieces[1..]))
  {
    var p := DecodePacket(Text(pieces[0]));
    assert DecodePieces(pieces)[0] == p;
    assert DecodePieces(pieces)[1..] == DecodePieces(pieces[1..]);
  }

  lemma ConsEqual(x: string, xs: seq<string>, y: string, ys: seq<string>)
    ensures [x] + xs == [y] + ys <==> x == y && xs == ys
  {
    assert ([x] + xs)[1..] == xs && ([y] + ys)[1..] == ys;
    assert ([x] + xs)[0] == x && ([y] + ys)[0] == y;
  }

  lemma {:induction false} ReprintPieces(pieces: seq<string>)
    requires AllClean(pieces) && Understood(DecodePieces(pieces))
    ensures EncodeTexts(DecodePieces(pieces)) == pieces <==> AllCanonical(pieces)
    ensures AllClean(EncodeTexts(DecodePieces(pieces)))
    ensures |EncodeTexts(DecodePieces(pieces))| == |pieces|
  {
    if pieces != [] {
      var p := DecodePacket(Text(pieces[0]));
      var rest := EncodeTexts(DecodePieces(pieces[1..]));
      DecodeCons(pieces);
      ReprintPiece(pieces[0]);
      ReprintIsClean(pieces[0]);
      ReprintPieces(pieces[1..]);
      ConsEqual(EncodeText(p), rest, pieces[0], pieces[1..]);
      assert pieces == [pieces[0]] + pieces[1..];
      assert ([EncodeText(p)] + rest)[1..] == rest;
    }
  }

  lemma {:induction false} TextPiecesAreCanonical(pieces: seq<string>)
    requires Understood(DecodePieces(pieces)) && AllText(DecodePieces(pieces))
    ensures AllCanonical(pieces)
  {
    if pieces != [] {
      DecodeCons(pieces);
      assert DecodePieces(pieces)[1..] == DecodePieces(pieces[1..]);
      TextPiecesAreCanonical(pieces[1..]);
    }
  }

  /**
   * A payload that is understood in full prints back as the same string exactly when
   * its base64 pieces are the ones an encoder writes; all-text payloads always do.
   */
  lemma PayloadReprint(payload: string)
    requires Understood(Unpack(payload))
    ensures Payload(Unpack(payload)) == payload <==> AllCanonical(Split(payload))
    ensures AllText(Unpack(payload)) ==> Payload(Unpack(payload)) == payload
  {
    var pieces := Split(payload);
    JoinSplit(payload);
    SplitIsClean(payload);
    ReprintPieces(pieces);
    var e := EncodeTexts(Unpack(payload));
    SplitJoin(e);
    if AllText(Unpack(payload)) {
      TextPiecesAreCanonical(pieces);
    }
  }
}
