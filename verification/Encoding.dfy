/** Strict UTF-8 decoding and base64 (section 4 of RFC 4648) as the event codecs use them. */
module Encoding {
  import opened Wrappers
  import opened Texts
  import opened Json

  type Byte = b: int | 0 <= b < 256

  // ---------------------------------------------------------------- base64

  const PAD: Symbol := Ch(0x3D)

  function Alphabet(v: int): (x: Symbol)
    requires 0 <= v < 64
    ensures x != PAD
  {
    if v < 26 then Ch(0x41 + v)
    else if v < 52 then Ch(0x61 + v - 26)
    else if v < 62 then Ch(0x30 + v - 52)
    else if v == 62 then Ch(0x2B)
    else Ch(0x2F)
  }

  function ReadSextet(x: Symbol): (r: Option<int>)
    ensures r.Some? ==> 0 <= r.value < 64
  {
    if !x.Ch? then None
    else if 0x41 <= x.code <= 0x5A then Some(x.code - 0x41)
    else if 0x61 <= x.code <= 0x7A then Some(x.code - 0x61 + 26)
    else if 0x30 <= x.code <= 0x39 then Some(x.code - 0x30 + 52)
    else if x.code == 0x2B then Some(62)
    else if x.code == 0x2F then Some(63)
    else None
  }

  lemma SextetRead(v: int)
    requires 0 <= v < 64
    ensures ReadSextet(Alphabet(v)) == Some(v)
  {
  }

  /** The four symbols of a group of one, two or three bytes. */
  function EncodeGroup(g: seq<Byte>): (t: Text)
    requires 1 <= |g| <= 3
    ensures |t| == 4
  {
    var b1 := if |g| > 1 then g[1] else 0;
    var b2 := if |g| > 2 then g[2] else 0;
    [Alphabet(g[0] / 4),
     Alphabet(g[0] % 4 * 16 + b1 / 16),
     if |g| > 1 then Alphabet(b1 % 16 * 4 + b2 / 64) else PAD,
     if |g| > 2 then Alphabet(b2 % 64) else PAD]
  }

  /** `b64encode(bs)` */
  function EncodeBase64(bs: seq<Byte>): Text {
    if bs == [] then []
    else if |bs| <= 3 then EncodeGroup(bs)
    else EncodeGroup(bs[..3]) + EncodeBase64(bs[3..])
  }

  /** One group of four symbols; only the last group may carry padding. */
  function DecodeGroup(t: Text, last: bool): (r: Option<seq<Byte>>)
    requires |t| == 4
  {
    match (ReadSextet(t[0]), ReadSextet(t[1]), ReadSextet(t[2]), ReadSextet(t[3]))
    case (Some(a), Some(b), Some(c), Some(d)) => Some([a * 4 + b / 16, b % 16 * 16 + c / 4, c % 4 * 64 + d])
    case (Some(a), Some(b), Some(c), None) =>
      if last && t[3] == PAD then Some([a * 4 + b / 16, b % 16 * 16 + c / 4]) else None
    case (Some(a), Some(b), None, None) =>
      if last && t[2] == t[3] == PAD then Some([a * 4 + b / 16]) else None
    case (_, _, _, _) => None
  }

  /** `b64decode(t, validate=True)`; None is a binascii error. */
  function DecodeBase64(t: Text): Option<seq<Byte>> {
    if t == [] then Some([])
    else if |t| < 4 then None
    else
      match (DecodeGroup(t[..4], |t| == 4), DecodeBase64(t[4..]))
      case (Some(g), Some(rest)) => Some(g + rest)
      case (_, _) => None
  }

  lemma GroupArithmetic(b0: int, b1: int, b2: int)
    requires 0 <= b0 < 256 && 0 <= b1 < 256 && 0 <= b2 < 256
    ensures var a, b, c, d := b0 / 4, b0 % 4 * 16 + b1 / 16, b1 % 16 * 4 + b2 / 64, b2 % 64;
            && 0 <= a < 64 && 0 <= b < 64 && 0 <= c < 64 && 0 <= d < 64
            && a * 4 + b / 16 == b0 && b % 16 * 16 + c / 4 == b1 && c % 4 * 64 + d == b2
  {
    assert (b0 % 4 * 16 + b1 / 16) / 16 == b0 % 4;
    assert (b0 % 4 * 16 + b1 / 16) % 16 == b1 / 16;
    assert (b1 % 16 * 4 + b2 / 64) / 4 == b1 % 16;
    assert (b1 % 16 * 4 + b2 / 64) % 4 == b2 / 64;
  }

  lemma GroupRoundTrip(g: seq<Byte>, last: bool)
    requires 1 <= |g| <= 3
    requires |g| == 3 || last
    ensures DecodeGroup(EncodeGroup(g), last) == Some(g)
  {
    hide Alphabet, ReadSextet;
    var b1 := if |g| > 1 then g[1] else 0;
    var b2 := if |g| > 2 then g[2] else 0;
    GroupArithmetic(g[0], b1, b2);
    SextetRead(g[0] / 4);
    SextetRead(g[0] % 4 * 16 + b1 / 16);
    SextetRead(b1 % 16 * 4 + b2 / 64);
    SextetRead(b2 % 64);
    PadIsNoSextet();
    assert g == if |g| == 1 then [g[0]] else if |g| == 2 then [g[0], g[1]] else [g[0], g[1], g[2]];
  }

  lemma PadIsNoSextet()
    ensures ReadSextet(PAD) == None
  {
  }

  /** Base64 round trip on every byte string. */
  lemma {:induction false} Base64RoundTrip(bs: seq<Byte>)
    ensures DecodeBase64(EncodeBase64(bs)) == Some(bs)
  {
    hide DecodeGroup, EncodeGroup;
    if bs == [] {
    } else if |bs| <= 3 {
      var t := EncodeGroup(bs);
      assert t[..4] == t && t[4..] == [];
      assert bs + [] == bs;
      GroupRoundTrip(bs, true);
    } else {
      var t := EncodeBase64(bs);
      assert t[..4] == EncodeGroup(bs[..3]) && t[4..] == EncodeBase64(bs[3..]);
      GroupRoundTrip(bs[..3], |t| == 4);
      Base64RoundTrip(bs[3..]);
      assert bs[..3] + bs[3..] == bs;
    }
  }

  /** The alphabet: the capital letters, the small letters, the digits, plus and slash, in this order. */
  lemma AlphabetOrder()
    ensures Alphabet(0) == Ch('A' as int) && Alphabet(25) == Ch('Z' as int)
    ensures Alphabet(26) == Ch('a' as int) && Alphabet(51) == Ch('z' as int)
    ensures Alphabet(52) == Ch('0' as int) && Alphabet(61) == Ch('9' as int)
    ensures Alphabet(62) == Ch('+' as int) && Alphabet(63) == Ch('/' as int)
    ensures forall v | 0 <= v < 61 && v != 25 && v != 51 :: Alphabet(v + 1).code == Alphabet(v).code + 1
  {
  }

  /** The symbols of one group spell its bytes as one number in base 64, most significant first. */
  lemma GroupIsNumber(g: seq<Byte>, a: int, b: int, c: int, d: int)
    requires |g| == 3 && 0 <= a < 64 && 0 <= b < 64 && 0 <= c < 64 && 0 <= d < 64
    ensures EncodeGroup(g) == [Alphabet(a), Alphabet(b), Alphabet(c), Alphabet(d)] <==>
            (g[0] as int) * 65_536 + (g[1] as int) * 256 + g[2] as int == ((a * 64 + b) * 64 + c) * 64 + d
  {
    hide Alphabet, ReadSextet;
    GroupArithmetic(g[0], g[1], g[2]);
    var x: int, y: int, z: int, w: int := g[0] / 4, g[0] % 4 * 16 + g[1] / 16, g[1] % 16 * 4 + g[2] / 64, g[2] % 64;
    GroupValue(g[0], g[1], g[2]);
    SextetRead(a);
    SextetRead(b);
    SextetRead(c);
    SextetRead(d);
    SextetRead(x);
    SextetRead(y);
    SextetRead(z);
    SextetRead(w);
    SextetsUnique(x, y, z, w, a, b, c, d);
  }

  lemma GroupValue(p: int, q: int, r: int)
    requires 0 <= p < 256 && 0 <= q < 256 && 0 <= r < 256
    ensures p * 65_536 + q * 256 + r
            == ((p / 4 * 64 + (p % 4 * 16 + q / 16)) * 64 + (q % 16 * 4 + r / 64)) * 64 + r % 64
  {
  }

  lemma SextetsUnique(x: int, y: int, z: int, w: int, a: int, b: int, c: int, d: int)
    requires 0 <= x < 64 && 0 <= y < 64 && 0 <= z < 64 && 0 <= w < 64
    requires 0 <= a < 64 && 0 <= b < 64 && 0 <= c < 64 && 0 <= d < 64
    ensures ((x * 64 + y) * 64 + z) * 64 + w == ((a * 64 + b) * 64 + c) * 64 + d <==>
            x == a && y == b && z == c && w == d
  {
  }

  /** A last group of one or two bytes is the group filled with zero bytes, with "=" for each missing byte. */
  lemma PaddedGroup(x: Byte, y: Byte)
    ensures EncodeGroup([x]) == EncodeGroup([x, 0, 0])[..2] + [PAD, PAD]
    ensures EncodeGroup([x, y]) == EncodeGroup([x, y, 0])[..3] + [PAD]
  {
    hide Alphabet;
  }

  predicate InAlphabet(x: Symbol) { ReadSextet(x).Some? }

  /** Only the characters of the alphabet are sextets. */
  lemma InAlphabetIff(x: Symbol)
    ensures InAlphabet(x) <==> exists v | 0 <= v < 64 :: Alphabet(v) == x
  {
    if InAlphabet(x) {
      assert Alphabet(ReadSextet(x).value) == x;
    } else {
      forall v | 0 <= v < 64 ensures Alphabet(v) != x { SextetRead(v); }
    }
  }

  /** Groups of four alphabet symbols, of which the last may end in one or two "=". */
  predicate WellPadded(t: Text) {
    && |t| % 4 == 0
    && (forall i | 0 <= i < |t| - 2 :: InAlphabet(t[i]))
    && (t != [] ==> InAlphabet(t[|t| - 2]) || t[|t| - 2] == t[|t| - 1] == PAD)
    && (t != [] ==> InAlphabet(t[|t| - 1]) || t[|t| - 1] == PAD)
  }

  lemma GroupDecodes(t: Text, last: bool)
    requires |t| == 4
    ensures DecodeGroup(t, last).Some? <==>
            && InAlphabet(t[0]) && InAlphabet(t[1])
            && (InAlphabet(t[2]) || (last && t[2] == t[3] == PAD)) && (InAlphabet(t[3]) || (last && t[3] == PAD))
  {
    hide ReadSextet;
    PadIsNoSextet();
  }

  lemma WellPaddedStep(t: Text)
    requires |t| >= 4
    ensures WellPadded(t) <==>
            && InAlphabet(t[0]) && InAlphabet(t[1])
            && (InAlphabet(t[2]) || (|t| == 4 && t[2] == t[3] == PAD))
            && (InAlphabet(t[3]) || (|t| == 4 && t[3] == PAD))
            && WellPadded(t[4..])
  {
    hide InAlphabet;
    var rest := t[4..];
    PadIsOutside();
    assert forall i | 0 <= i < |rest| :: rest[i] == t[i + 4];
    if WellPadded(rest) && InAlphabet(t[0]) && InAlphabet(t[1]) && rest != [] && InAlphabet(t[2]) && InAlphabet(t[3]) {
      forall i | 0 <= i < |t| - 2 ensures InAlphabet(t[i]) {
        if i >= 4 { assert t[i] == rest[i - 4]; }
      }
    }
    if WellPadded(t) {
      forall i | 0 <= i < |rest| - 2 ensures InAlphabet(rest[i]) { assert rest[i] == t[i + 4]; }
    }
  }

  /** Strict decoding accepts exactly the well-padded texts. */
  lemma {:induction false} DecodesIff(t: Text)
    ensures DecodeBase64(t).Some? <==> WellPadded(t)
  {
    hide DecodeGroup, InAlphabet;
    if |t| >= 4 {
      hide WellPadded;
      GroupDecodes(t[..4], |t| == 4);
      DecodesIff(t[4..]);
      WellPaddedStep(t);
    }
  }

  lemma PadIsOutside()
    ensures !InAlphabet(PAD)
  {
  }

  // ---------------------------------------------------------------- UTF-8

  predicate Continuation(b: Byte) { 0x80 <= b < 0xC0 }

  /** The first character of a UTF-8 byte string and its length; 0 marks a decoding error. */
  function DecodeOne(b: seq<Byte>): (r: (Symbol, nat))
    requires b != []
    ensures r.1 <= |b|
    ensures r.1 > 0 ==> r.0.Ch? && !High(r.0) && !Low(r.0)
  {
    var b0: int := b[0];
    var b1: int := if |b| >= 2 then b[1] else 0;
    var b2: int := if |b| >= 3 then b[2] else 0;
    var b3: int := if |b| >= 4 then b[3] else 0;
    if b0 < 0x80 then (Ch(b0), 1)
    else if 0xC2 <= b0 < 0xE0 && Continuation(b1) then (Ch((b0 - 0xC0) * 64 + (b1 - 0x80)), 2)
    else if 0xE0 <= b0 < 0xF0 && Continuation(b1) && Continuation(b2)
      && (b0 == 0xE0 ==> b1 >= 0xA0) && (b0 == 0xED ==> b1 < 0xA0) then
      (Ch((b0 - 0xE0) * 4096 + (b1 - 0x80) * 64 + (b2 - 0x80)), 3)
    else if 0xF0 <= b0 <= 0xF4 && Continuation(b1) && Continuation(b2) && Continuation(b3)
      && (b0 == 0xF0 ==> b1 >= 0x90) && (b0 == 0xF4 ==> b1 < 0x90) then
      (Ch((b0 - 0xF0) * 262144 + (b1 - 0x80) * 4096 + (b2 - 0x80) * 64 + (b3 - 0x80)), 4)
    else (SPACE, 0)
  }

  /** `b.decode("utf-8")`; None is a UnicodeDecodeError. */
  function DecodeUtf8(b: seq<Byte>): (r: Option<Text>)
    ensures r.Some? ==> Utf8Text(r.value)
  {
    if b == [] then Some([])
    else
      var (x, n) := DecodeOne(b);
      if n == 0 then None
      else
        match DecodeUtf8(b[n..])
        case Some(t) => Some([x] + t)
        case None => None
  }

  /** `t.encode("utf-8")` of ASCII text. */
  function AsciiBytes(t: Text): (b: seq<Byte>)
    requires Ascii(t)
    ensures |b| == |t|
  {
    seq(|t|, i requires 0 <= i < |t| => t[i].code)
  }

  lemma {:induction false} AsciiRoundTrip(t: Text)
    requires Ascii(t)
    ensures DecodeUtf8(AsciiBytes(t)) == Some(t)
  {
    if t != [] {
      assert Ascii(t[1..]) by { assert forall i | 0 <= i < |t[1..]| :: t[1..][i] == t[i + 1]; }
      assert AsciiBytes(t)[1..] == AsciiBytes(t[1..]);
      AsciiRoundTrip(t[1..]);
      assert t == [t[0]] + t[1..];
    }
  }

  /** The length of `t.encode("utf-8")`; a digest is 64 hexadecimal digits. */
  function Utf8Length(t: Text): nat {
    if t == [] then 0
    else
      (if t[0].Hex? then 64
       else if t[0].code < 0x80 then 1
       else if t[0].code < 0x800 then 2
       else if t[0].code < 0x1_0000 then 3
       else 4) + Utf8Length(t[1..])
  }

  // ---------------------------------------------------------------- encoding, as RFC 3629 gives it

  predicate Scalar(x: Symbol) { x.Ch? && !High(x) && !Low(x) }

  /** The bytes of one character. */
  function EncodeOne(x: Symbol): (b: seq<Byte>)
    requires Scalar(x)
    ensures b != []
  {
    var c := x.code;
    if c < 0x80 then [c]
    else if c < 0x800 then [0xC0 + c / 64, 0x80 + c % 64]
    else if c < 0x1_0000 then [0xE0 + c / 4096, 0x80 + c / 64 % 64, 0x80 + c % 64]
    else [0xF0 + c / 262144, 0x80 + c / 4096 % 64, 0x80 + c / 64 % 64, 0x80 + c % 64]
  }

  function EncodeUtf8(t: Text): seq<Byte>
    requires Utf8Text(t)
  {
    if t == [] then [] else EncodeOne(t[0]) + EncodeUtf8(t[1..])
  }

  lemma DecodeEncodedOne(x: Symbol, rest: seq<Byte>)
    requires Scalar(x)
    ensures DecodeOne(EncodeOne(x) + rest) == (x, |EncodeOne(x)|)
  {
    var c := x.code;
    var b := EncodeOne(x) + rest;
    assert forall i | 0 <= i < |EncodeOne(x)| :: b[i] == EncodeOne(x)[i];
    CodeParts(c);
  }

  lemma CodeParts(c: CodePoint)
    ensures c == c / 64 * 64 + c % 64
    ensures c / 64 == c / 4096 * 64 + c / 64 % 64
    ensures c / 4096 == c / 262144 * 64 + c / 4096 % 64
  {
    assert c / 64 / 64 == c / 4096 && c / 4096 / 64 == c / 262144;
  }

  /** Encoding and decoding are inverse, and the byte count is the length of the encoding. */
  lemma {:induction false} Utf8RoundTrip(t: Text)
    requires Utf8Text(t)
    ensures DecodeUtf8(EncodeUtf8(t)) == Some(t)
    ensures |EncodeUtf8(t)| == Utf8Length(t)
  {
    hide EncodeOne, DecodeOne;
    if t != [] {
      assert Scalar(t[0]);
      SuffixIsUtf8(t, 1);
      Utf8RoundTrip(t[1..]);
      var rest := EncodeUtf8(t[1..]);
      DecodeEncodedOne(t[0], rest);
      EncodedLength(t[0]);
      assert (EncodeOne(t[0]) + rest)[|EncodeOne(t[0])|..] == rest;
      assert [t[0]] + t[1..] == t;
    }
  }

  lemma EncodedLength(x: Symbol)
    requires Scalar(x)
    ensures |EncodeOne(x)|
            == (if x.code < 0x80 then 1 else if x.code < 0x800 then 2 else if x.code < 0x1_0000 then 3 else 4)
  {
  }

  lemma TwoBytes(c: int, b0: int, b1: int)
    requires 0xC2 <= b0 < 0xE0 && 0x80 <= b1 < 0xC0 && c == (b0 - 0xC0) * 64 + (b1 - 0x80)
    ensures 0x80 <= c < 0x800 && b0 == 0xC0 + c / 64 && b1 == 0x80 + c % 64
  {
  }

  lemma ThreeBytes(c: int, b0: int, b1: int, b2: int)
    requires 0xE0 <= b0 < 0xF0 && 0x80 <= b1 < 0xC0 && 0x80 <= b2 < 0xC0 && (b0 == 0xE0 ==> b1 >= 0xA0)
    requires c == (b0 - 0xE0) * 4096 + (b1 - 0x80) * 64 + (b2 - 0x80)
    ensures 0x800 <= c < 0x1_0000 && b0 == 0xE0 + c / 4096 && b1 == 0x80 + c / 64 % 64 && b2 == 0x80 + c % 64
  {
    assert c / 64 == (b0 - 0xE0) * 64 + (b1 - 0x80);
  }

  lemma FourBytes(c: int, b0: int, b1: int, b2: int, b3: int)
    requires 0xF0 <= b0 <= 0xF4 && 0x80 <= b1 < 0xC0 && 0x80 <= b2 < 0xC0 && 0x80 <= b3 < 0xC0
    requires (b0 == 0xF0 ==> b1 >= 0x90) && (b0 == 0xF4 ==> b1 < 0x90)
    requires c == (b0 - 0xF0) * 262144 + (b1 - 0x80) * 4096 + (b2 - 0x80) * 64 + (b3 - 0x80)
    ensures 0x1_0000 <= c < 0x11_0000
    ensures b0 == 0xF0 + c / 262144 && b1 == 0x80 + c / 4096 % 64 && b2 == 0x80 + c / 64 % 64 && b3 == 0x80 + c % 64
  {
    assert c / 64 == ((b0 - 0xF0) * 64 + (b1 - 0x80)) * 64 + (b2 - 0x80);
    assert c / 4096 == (b0 - 0xF0) * 64 + (b1 - 0x80);
  }

  /** A decoded character encodes to exactly the bytes it was decoded from: no overlong form is accepted. */
  lemma DecodedOneEncodes(b: seq<Byte>)
    requires b != []
    ensures var (x, n) := DecodeOne(b); n > 0 ==> Scalar(x) && EncodeOne(x) == b[..n]
  {
    var (x, n) := DecodeOne(b);
    if n == 1 {
      assert b[..1] == [b[0]];
    } else if n == 2 {
      TwoBytes(x.code, b[0], b[1]);
      assert b[..2] == [b[0], b[1]];
    } else if n == 3 {
      ThreeBytes(x.code, b[0], b[1], b[2]);
      assert b[..3] == [b[0], b[1], b[2]];
    } else if n == 4 {
      FourBytes(x.code, b[0], b[1], b[2], b[3]);
      assert b[..4] == [b[0], b[1], b[2], b[3]];
    }
  }

  /** Strict decoding accepts only the encoding of what it returns. */
  lemma {:induction false} DecodedUtf8Encodes(b: seq<Byte>)
    ensures match DecodeUtf8(b)
            case Some(t) => EncodeUtf8(t) == b
            case None => true
  {
    hide DecodeOne, EncodeOne;
    if b != [] {
      DecodedOneEncodes(b);
      var (x, n) := DecodeOne(b);
      if n > 0 {
        DecodedUtf8Encodes(b[n..]);
        if DecodeUtf8(b[n..]).Some? {
          var t := DecodeUtf8(b[n..]).value;
          assert ([x] + t)[1..] == t;
          assert b == b[..n] + b[n..];
        }
      }
    }
  }
}
