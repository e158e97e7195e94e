/**
 * Base64 as section 4 of RFC 4648 defines it. Encoding pads with '='.
 * Decoding ignores every character outside the alphabet, padding included,
 * and also accepts the two characters of the URL-safe alphabet.
 */
module Base64 {
  import opened Packets

  /** Six bits, the value of one character. */
  type sextet = x: int | 0 <= x < 64

  function CharOf(n: sextet): char {
    if n < 26 then (n + 65) as char
    else if n < 52 then (n + 71) as char
    else if n < 62 then (n - 4) as char
    else if n == 62 then '+'
    else '/'
  }

  function ValueOf(c: char): Option<sextet> {
    if 'A' <= c <= 'Z' then Some(c as int - 65)
    else if 'a' <= c <= 'z' then Some(c as int - 71)
    else if '0' <= c <= '9' then Some(c as int + 4)
    else if c == '+' || c == '-' then Some(62)
    else if c == '/' || c == '_' then Some(63)
    else None
  }

  // The four sextets of three bytes.

  function Sextet0(b0: byte): sextet { b0 as int / 4 }

  function Sextet1(b0: byte, b1: byte): sextet { b0 as int % 4 * 16 + b1 as int / 16 }

  function Sextet2(b1: byte, b2: byte): sextet { b1 as int % 16 * 4 + b2 as int / 64 }

  function Sextet3(b2: byte): sextet { b2 as int % 64 }

  // The three bytes of four sextets.

  function Byte0(x0: sextet, x1: sextet): byte { x0 as int * 4 + x1 as int / 16 }

  function Byte1(x1: sextet, x2: sextet): byte { x1 as int % 16 * 16 + x2 as int / 4 }

  function Byte2(x2: sextet, x3: sextet): byte { x2 as int % 4 * 64 + x3 as int }

  function Sextets(b: seq<byte>): seq<sextet> {
    if |b| == 0 then []
    else if |b| == 1 then [Sextet0(b[0]), Sextet1(b[0], 0)]
    else if |b| == 2 then [Sextet0(b[0]), Sextet1(b[0], b[1]), Sextet2(b[1], 0)]
    else [Sextet0(b[0]), Sextet1(b[0], b[1]), Sextet2(b[1], b[2]), Sextet3(b[2])] + Sextets(b[3..])
  }

  function Chars(q: seq<sextet>): string {
    if q == [] then "" else [CharOf(q[0])] + Chars(q[1..])
  }

  function Padding(length: nat): string {
    if length % 3 == 1 then "==" else if length % 3 == 2 then "=" else ""
  }

  function Encode(b: seq<byte>): string {
    Chars(Sextets(b)) + Padding(|b|)
  }

  /** The values of the characters that belong to the alphabet. */
  function Values(s: string): seq<sextet> {
    if s == "" then []
    else
      var rest := Values(s[1..]);
      match ValueOf(s[0])
      case None => rest
      case Some(v) => [v] + rest
  }

  function Pack(q: seq<sextet>): seq<byte> {
    if |q| < 2 then []
    else if |q| == 2 then [Byte0(q[0], q[1])]
    else if |q| == 3 then [Byte0(q[0], q[1]), Byte1(q[1], q[2])]
    else [Byte0(q[0], q[1]), Byte1(q[1], q[2]), Byte2(q[2], q[3])] + Pack(q[4..])
  }

  function Decode(s: string): seq<byte> {
    Pack(Values(s))
  }

  lemma GroupInverse(b0: byte, b1: byte, b2: byte)
    ensures Byte0(Sextet0(b0), Sextet1(b0, b1)) == b0
    ensures Byte1(Sextet1(b0, b1), Sextet2(b1, b2)) == b1
    ensures Byte2(Sextet2(b1, b2), Sextet3(b2)) == b2
  {}

  lemma PackGroup(x0: sextet, x1: sextet, x2: sextet, x3: sextet, rest: seq<sextet>)
    ensures Pack([x0, x1, x2, x3] + rest) == [Byte0(x0, x1), Byte1(x1, x2), Byte2(x2, x3)] + Pack(rest)
  {
    var q := [x0, x1, x2, x3] + rest;
    assert q[4..] == rest;
  }

  lemma PackTwo(x0: sextet, x1: sextet)
    ensures Pack([x0, x1]) == [Byte0(x0, x1)]
  {}

  lemma PackThree(x0: sextet, x1: sextet, x2: sextet)
    ensures Pack([x0, x1, x2]) == [Byte0(x0, x1), Byte1(x1, x2)]
  {}

  /** One byte left over: the padding bits are dropped. */
  lemma TailOfOne(b0: byte)
    ensures Pack(Sextets([b0])) == [b0]
  {
    var x0, x1 := Sextet0(b0), Sextet1(b0, 0);
    assert Sextets([b0]) == [x0, x1];
    PackTwo(x0, x1);
    GroupInverse(b0, 0, 0);
  }

  /** Two bytes left over: the padding bits are dropped. */
  lemma TailOfTwo(b0: byte, b1: byte)
    ensures Pack(Sextets([b0, b1])) == [b0, b1]
  {
    var x0, x1, x2 := Sextet0(b0), Sextet1(b0, b1), Sextet2(b1, 0);
    assert Sextets([b0, b1]) == [x0, x1, x2];
    PackThree(x0, x1, x2);
    GroupInverse(b0, b1, 0);
  }

  lemma {:induction false} PackSextets(b: seq<byte>)
    ensures Pack(Sextets(b)) == b
  {
    if |b| == 0 {
    } else if |b| == 1 {
      TailOfOne(b[0]);
      assert b == [b[0]];
    } else if |b| == 2 {
      TailOfTwo(b[0], b[1]);
      assert b == [b[0], b[1]];
    } else {
      var b0, b1, b2 := b[0], b[1], b[2];
      calc {
        Pack(Sextets(b));
        Pack([Sextet0(b0), Sextet1(b0, b1), Sextet2(b1, b2), Sextet3(b2)] + Sextets(b[3..]));
        { PackGroup(Sextet0(b0), Sextet1(b0, b1), Sextet2(b1, b2), Sextet3(b2), Sextets(b[3..])); }
        [Byte0(Sextet0(b0), Sextet1(b0, b1)), Byte1(Sextet1(b0, b1), Sextet2(b1, b2)),
         Byte2(Sextet2(b1, b2), Sextet3(b2))] + Pack(Sextets(b[3..]));
        { GroupInverse(b0, b1, b2); }
        [b0, b1, b2] + Pack(Sextets(b[3..]));
        { PackSextets(b[3..]); }
        [b0, b1, b2] + b[3..];
        b;
      }
    }
  }

  lemma ValuesCons(x: sextet, rest: string)
    ensures Values([CharOf(x)] + rest) == [x] + Values(rest)
  {
    var s := [CharOf(x)] + rest;
    assert s[1..] == rest;
    ValueOfCharOf(x);
  }

  lemma ValueOfCharOf(x: sextet)
    ensures ValueOf(CharOf(x)) == Some(x)
  {}

  lemma {:induction false} ValuesOfChars(q: seq<sextet>, padding: string)
    requires Values(padding) == []
    ensures Values(Chars(q) + padding) == q
  {
    if q == [] {
      assert Chars(q) + padding == padding;
    } else {
      ValuesOfChars(q[1..], padding);
      ValuesCons(q[0], Chars(q[1..]) + padding);
      assert Chars(q) + padding == [CharOf(q[0])] + (Chars(q[1..]) + padding);
    }
  }

  /** Decoding undoes encoding for every byte string. */
  lemma RoundTrip(b: seq<byte>)
    ensures Decode(Encode(b)) == b
  {
    assert Values("=") == [] && Values("==") == [] by {
      assert "="[1..] == "" && "=="[1..] == "=";
    }
    ValuesOfChars(Sextets(b), Padding(|b|));
    PackSextets(b);
  }

  lemma {:induction false} CharsInAlphabet(q: seq<sextet>)
    ensures forall c | c in Chars(q) :: ValueOf(c).Some?
  {
    if q != [] {
      CharsInAlphabet(q[1..]);
    }
  }

  /** Every character of an encoding is in the alphabet or is padding. */
  lemma Alphabet(b: seq<byte>)
    ensures forall c | c in Encode(b) :: ValueOf(c).Some? || c == '='
  {
    CharsInAlphabet(Sextets(b));
  }

  lemma {:induction false} CharsLength(b: seq<byte>)
    ensures |Chars(Sextets(b))| == |Sextets(b)| == (|b| * 8 + 5) / 6
  {
    SameLength(Sextets(b));
    if |b| > 2 {
      CharsLength(b[3..]);
    }
  }

  lemma {:induction false} SameLength(q: seq<sextet>)
    ensures |Chars(q)| == |q|
  {
    if q != [] {
      SameLength(q[1..]);
    }
  }

  lemma FoursFilled(n: nat)
    ensures (n * 8 + 5) / 6 + |Padding(n)| == (n + 2) / 3 * 4
  {
    var q, r := n / 3, n % 3;
    assert n == 3 * q + r;
    assert (n * 8 + 5) / 6 == 4 * q + (r * 8 + 5) / 6;
    assert (n + 2) / 3 == q + (r + 2) / 3;
  }

  /** An encoding is made of fours, and what the bytes do not fill is padding. */
  lemma PaddedToFour(b: seq<byte>)
    ensures |Encode(b)| == (|b| + 2) / 3 * 4
    ensures forall i | 0 <= i < |Encode(b)| :: Encode(b)[i] == '=' <==> i >= (|b| * 8 + 5) / 6
  {
    CharsLength(b);
    FoursFilled(|b|);
    PaddedAfter(Chars(Sextets(b)), Padding(|b|), Sextets(b));
  }

  lemma PaddedAfter(s: string, padding: string, q: seq<sextet>)
    requires s == Chars(q) && forall c | c in padding :: c == '='
    ensures forall i | 0 <= i < |s + padding| :: (s + padding)[i] == '=' <==> i >= |s|
  {
    CharsInAlphabet(q);
    forall i | 0 <= i < |s|
      ensures s[i] != '='
    {
      assert ValueOf(s[i]).Some?;
    }
    forall i | |s| <= i < |s + padding|
      ensures (s + padding)[i] == '='
    {
      assert padding[i - |s|] in padding;
    }
  }

  lemma OneByte(b0: byte)
    ensures Encode([b0]) == [CharOf(Sextet0(b0)), CharOf(Sextet1(b0, 0))] + "=="
  {
    TwoChars(Sextet0(b0), Sextet1(b0, 0));
  }

  lemma TwoChars(x0: sextet, x1: sextet)
    ensures Chars([x0, x1]) == [CharOf(x0), CharOf(x1)]
  {
    assert [x0, x1][1..] == [x1] && [x1][1..] == [];
    assert Chars([x1]) == [CharOf(x1)] + Chars([]);
  }

  lemma ThreeChars(x0: sextet, x1: sextet, x2: sextet)
    ensures Chars([x0, x1, x2]) == [CharOf(x0), CharOf(x1), CharOf(x2)]
  {
    assert [x0, x1, x2][1..] == [x1, x2];
    TwoChars(x1, x2);
  }

  lemma FourChars(x0: sextet, x1: sextet, x2: sextet, x3: sextet)
    ensures Chars([x0, x1, x2, x3]) == [CharOf(x0), CharOf(x1), CharOf(x2), CharOf(x3)]
  {
    assert [x0, x1, x2, x3][1..] == [x1, x2, x3];
    ThreeChars(x1, x2, x3);
  }

  /** Test vectors of section 10 of RFC 4648: "f", "fo" and "foo". */
  lemma TestVectors()
    ensures Encode([102]) == "Zg==" && Encode([102, 111]) == "Zm8=" && Encode([102, 111, 111]) == "Zm9v"
  {
    OneByte(102);
    var two: seq<byte>, three: seq<byte> := [102, 111], [102, 111, 111];
    assert Sextets(two) == [25, 38, 60];
    ThreeChars(25, 38, 60);
    assert three[3..] == [];
    assert Sextets(three) == [25, 38, 61, 47];
    FourChars(25, 38, 61, 47);
  }
}
