/**
 Python's `json.dumps` on string-valued objects and `json.loads` on any text
 (section 7 of RFC 8259 for the string escapes).

 `dumps` escapes everything outside printable ASCII. A character beyond U+FFFF becomes two
 `\u` escapes, and `loads` joins two such escapes into one character. A Python string that
 holds the two halves as separate lone surrogates therefore prints like the joined character:
 `Joined` is what survives, and `Escape` is injective exactly up to `Joined`.
 */
module Json {
  import opened Wrappers
  import opened Texts

  const QUOTE: Symbol := Ch(0x22)
  const BACKSLASH: Symbol := Ch(0x5C)
  const COLON: Symbol := Ch(0x3A)
  const COMMA: Symbol := Ch(0x2C)
  const OPEN_BRACE: Symbol := Ch(0x7B)
  const CLOSE_BRACE: Symbol := Ch(0x7D)
  const OPEN_BRACKET: Symbol := Ch(0x5B)
  const CLOSE_BRACKET: Symbol := Ch(0x5D)
  const LOWER_U: Symbol := Ch(0x75)

  // ---------------------------------------------------------------- hexadecimal escapes

  function HexDigit(d: int): CodePoint
    requires 0 <= d < 16
  {
    if d < 10 then 0x30 + d else 0x61 + d - 10
  }

  function ReadHexDigit(x: Symbol): (r: Option<int>)
    ensures r.Some? ==> 0 <= r.value < 16
  {
    if !x.Ch? then None
    else if 0x30 <= x.code <= 0x39 then Some(x.code - 0x30)
    else if 0x61 <= x.code <= 0x66 then Some(x.code - 0x61 + 10)
    else if 0x41 <= x.code <= 0x46 then Some(x.code - 0x41 + 10)
    else None
  }

  /** The last w hexadecimal digits of n. */
  function HexPad(n: nat, w: nat): (t: Text)
    ensures |t| == w && Ascii(t)
  {
    if w == 0 then [] else HexPad(n / 16, w - 1) + [Ch(HexDigit(n % 16))]
  }

  function ReadHex(t: Text): (r: Option<nat>) {
    if t == [] then Some(0)
    else
      match (ReadHex(t[..|t| - 1]), ReadHexDigit(t[|t| - 1]))
      case (Some(n), Some(d)) => Some(16 * n + d)
      case (_, _) => None
  }

  function Pow16(w: nat): (p: nat)
    ensures p >= 1
  {
    if w == 0 then 1 else 16 * Pow16(w - 1)
  }

  lemma {:induction false} ReadHexPad(n: nat, w: nat)
    requires n < Pow16(w)
    ensures ReadHex(HexPad(n, w)) == Some(n)
  {
    if w > 0 {
      assert HexPad(n, w)[..w - 1] == HexPad(n / 16, w - 1);
      ReadHexPad(n / 16, w - 1);
    }
  }

  /** `\uXXXX` */
  function UnicodeEscape(n: nat): (t: Text)
    ensures |t| == 6 && t[0] == BACKSLASH && t[1] == LOWER_U && Ascii(t)
  {
    [BACKSLASH, LOWER_U] + HexPad(n, 4)
  }

  /** The value of a `\uXXXX` escape at the head of the text. */
  function ReadUnicodeEscape(s: Text): (r: Option<nat>)
    ensures r.Some? ==> r.value < 0x1_0000 && |s| >= 6 && s[0] == BACKSLASH && s[1] == LOWER_U
  {
    if |s| < 6 || s[0] != BACKSLASH || s[1] != LOWER_U then None
    else
      match ReadHex(s[2..6])
      case Some(n) => if n < 0x1_0000 then Some(n) else None
      case None => None
  }

  lemma UnicodeEscapeRead(n: nat, tail: Text)
    requires n < 0x1_0000
    ensures ReadUnicodeEscape(UnicodeEscape(n) + tail) == Some(n)
  {
    var s := UnicodeEscape(n) + tail;
    assert s[2..6] == HexPad(n, 4);
    assert Pow16(2) == 256;
    assert Pow16(4) == 0x1_0000;
    ReadHexPad(n, 4);
  }

  // ---------------------------------------------------------------- surrogate pairs

  predicate High(x: Symbol) { x.Ch? && IsHighSurrogate(x.code) }

  predicate Low(x: Symbol) { x.Ch? && IsLowSurrogate(x.code) }

  function Pair(high: CodePoint, low: CodePoint): (c: CodePoint)
    requires IsHighSurrogate(high) && IsLowSurrogate(low)
    ensures c >= 0x1_0000
  {
    0x1_0000 + (high - 0xD800) * 1024 + (low - 0xDC00)
  }

  function HighHalf(c: CodePoint): (h: CodePoint)
    requires c >= 0x1_0000
    ensures IsHighSurrogate(h)
  {
    0xD800 + (c - 0x1_0000) / 1024
  }

  function LowHalf(c: CodePoint): (l: CodePoint)
    requires c >= 0x1_0000
    ensures IsLowSurrogate(l)
  {
    0xDC00 + (c - 0x1_0000) % 1024
  }

  lemma HalvesPair(c: CodePoint)
    requires c >= 0x1_0000
    ensures Pair(HighHalf(c), LowHalf(c)) == c
  {
  }

  lemma PairHalves(h: CodePoint, l: CodePoint)
    requires IsHighSurrogate(h) && IsLowSurrogate(l)
    ensures HighHalf(Pair(h, l)) == h && LowHalf(Pair(h, l)) == l
  {
  }

  /** Every high surrogate directly followed by a low one becomes the character they encode. */
  function Joined(t: Text): (r: Text)
    ensures |r| <= |t|
    ensures t != [] ==> r != []
  {
    if t == [] then []
    else if |t| >= 2 && High(t[0]) && Low(t[1]) then [Ch(Pair(t[0].code, t[1].code))] + Joined(t[2..])
    else [t[0]] + Joined(t[1..])
  }

  predicate NoSplitPair(t: Text) {
    forall i | 0 <= i < |t| - 1 :: !(High(t[i]) && Low(t[i + 1]))
  }

  /** Joining changes exactly the texts that hold a split pair. */
  lemma {:induction false} JoinedFixes(t: Text)
    ensures Joined(t) == t <==> NoSplitPair(t)
  {
    if |t| >= 2 {
      if High(t[0]) && Low(t[1]) {
        assert |Joined(t)| < |t|;
      } else {
        JoinedFixes(t[1..]);
        assert t == [t[0]] + t[1..];
        assert Joined(t)[1..] == Joined(t[1..]);
        if NoSplitPair(t[1..]) {
          forall i | 0 <= i < |t| - 1 ensures !(High(t[i]) && Low(t[i + 1])) {
            if i > 0 { assert t[i] == t[1..][i - 1] && t[i + 1] == t[1..][i]; }
          }
        } else {
          var i :| 0 <= i < |t[1..]| - 1 && High(t[1..][i]) && Low(t[1..][i + 1]);
          assert High(t[i + 1]) && Low(t[i + 1 + 1]);
        }
      }
    }
  }

  lemma {:induction false} JoinedHasNoSplitPair(t: Text)
    ensures NoSplitPair(Joined(t))
    ensures t != [] && Low(Joined(t)[0]) ==> Low(t[0])
  {
    if |t| >= 2 {
      var r := if High(t[0]) && Low(t[1]) then t[2..] else t[1..];
      JoinedHasNoSplitPair(r);
      assert Joined(t)[1..] == Joined(r);
      forall i | 0 <= i < |Joined(t)| - 1 ensures !(High(Joined(t)[i]) && Low(Joined(t)[i + 1])) {
        if i > 0 { assert Joined(t)[i] == Joined(r)[i - 1] && Joined(t)[i + 1] == Joined(r)[i]; }
      }
    }
  }

  lemma {:induction false} JoiningTwice(t: Text)
    ensures Joined(Joined(t)) == Joined(t)
  {
    JoinedHasNoSplitPair(t);
    JoinedFixes(Joined(t));
  }

  /** No surrogate and no character that a surrogate pair encodes. */
  predicate Basic(t: Text) {
    forall i | 0 <= i < |t| :: t[i].Ch? ==> t[i].code < 0xD800
  }

  lemma LitIsBasic(s: string)
    requires forall i | 0 <= i < |s| :: s[i] as int < 0xD800
    ensures Basic(Lit(s))
  {
  }

  lemma {:induction false} JoinedToBasic(t: Text)
    requires Basic(Joined(t))
    ensures Joined(t) == t
  {
    if t != [] {
      var r := if |t| >= 2 && High(t[0]) && Low(t[1]) then t[2..] else t[1..];
      assert Joined(t)[1..] == Joined(r);
      assert forall i | 0 <= i < |Joined(r)| :: Joined(r)[i] == Joined(t)[i + 1];
      JoinedToBasic(r);
      assert Joined(t)[0].Ch? ==> Joined(t)[0].code < 0xD800;
      assert t == [t[0]] + t[1..];
    }
  }

  /** A basic text has no other spelling. */
  lemma BasicHasOneSpelling(t: Text, s: Text)
    requires Basic(t) && Joined(s) == Joined(t)
    ensures s == t
  {
    hide Joined;
    assert NoSplitPair(t);
    JoinedFixes(t);
    JoinedToBasic(s);
  }

  function Smile(): Text { [Ch(0x1F600)] }

  function SplitSmile(): Text { [Ch(0xD83D), Ch(0xDE00)] }

  /** U+1F600 and its two surrogates are two spellings of one string. */
  lemma SmilesJoinAlike()
    ensures Joined(SplitSmile()) == Smile() && Joined(Smile()) == Smile() && SplitSmile() != Smile()
    ensures NoSplitPair(Smile()) && !NoSplitPair(SplitSmile())
  {
    assert Joined(SplitSmile()) == Smile() by { assert SplitSmile()[2..] == []; }
    JoinedFixes(Smile());
    JoinedFixes(SplitSmile());
  }

  // ---------------------------------------------------------------- printing strings

  function ShortEscape(c: CodePoint): Option<CodePoint> {
    if c == 0x22 || c == 0x5C then Some(c)
    else if c == 8 then Some(0x62)
    else if c == 9 then Some(0x74)
    else if c == 10 then Some(0x6E)
    else if c == 12 then Some(0x66)
    else if c == 13 then Some(0x72)
    else None
  }

  /** How `dumps` prints one character of a string. */
  function EscapeOne(x: Symbol): (t: Text)
    ensures t != [] && t[0] != QUOTE
    ensures x.Ch? ==> Ascii(t)
  {
    if x.Hex? then [x]
    else
      match ShortEscape(x.code)
      case Some(e) => [BACKSLASH, Ch(e)]
      case None =>
        if 0x20 <= x.code <= 0x7E then [x]
        else if x.code < 0x1_0000 then UnicodeEscape(x.code)
        else UnicodeEscape(HighHalf(x.code)) + UnicodeEscape(LowHalf(x.code))
  }

  function Escape(t: Text): Text {
    if t == [] then [] else EscapeOne(t[0]) + Escape(t[1..])
  }

  /** `dumps(t)` */
  function PrintString(t: Text): Text {
    [QUOTE] + Escape(t) + [QUOTE]
  }

  /** The hexadecimal digit of value d, in lower case. */
  lemma HexDigitIs(d: int)
    requires 0 <= d < 16
    ensures Ch(HexDigit(d)) == Lit("0123456789abcdef")[d]
  {
  }

  lemma HexPadTwo(n: nat)
    ensures HexPad(n, 2) == [Ch(HexDigit(n / 16 % 16)), Ch(HexDigit(n % 16))]
  {
    hide HexDigit;
    assert HexPad(n / 16, 1) == HexPad(n / 16 / 16, 0) + [Ch(HexDigit(n / 16 % 16))];
  }

  lemma HexPadFour(n: nat)
    ensures HexPad(n, 4) == HexPad(n / 16 / 16, 2) + [Ch(HexDigit(n / 16 % 16)), Ch(HexDigit(n % 16))]
  {
    hide HexDigit;
    assert HexPad(n / 16, 3) == HexPad(n / 16 / 16, 2) + [Ch(HexDigit(n / 16 % 16))];
  }

  lemma HexPadDigits(n: nat)
    requires n < 0x1_0000
    ensures HexPad(n, 4) == [Ch(HexDigit(n / 4096)), Ch(HexDigit(n / 256 % 16)),
                             Ch(HexDigit(n / 16 % 16)), Ch(HexDigit(n % 16))]
  {
    hide HexDigit, HexPad;
    HexPadFour(n);
    HexPadTwo(n / 16 / 16);
    assert n / 16 / 16 == n / 256 && n / 256 / 16 == n / 4096;
  }

  /** A backslash, "u" and the four hexadecimal digits of n. */
  predicate HexEscape(t: Text, n: nat) {
    n < 0x1_0000 &&
    t == Lit("\\u") + [Lit("0123456789abcdef")[n / 4096], Lit("0123456789abcdef")[n / 256 % 16],
                       Lit("0123456789abcdef")[n / 16 % 16], Lit("0123456789abcdef")[n % 16]]
  }

  lemma UnicodeEscapeIsHex(n: nat)
    requires n < 0x1_0000
    ensures HexEscape(UnicodeEscape(n), n)
  {
    hide HexDigit, HexPad;
    HexPadDigits(n);
    HexDigitIs(n / 4096);
    HexDigitIs(n / 256 % 16);
    HexDigitIs(n / 16 % 16);
    HexDigitIs(n % 16);
    assert Lit("\\u") == [BACKSLASH, LOWER_U];
  }

  /**
   How each character is printed: the seven short escapes of RFC 8259 that apply, printable ASCII as it
   is, and everything else as one hexadecimal escape, or as the two of its surrogate pair.
   */
  lemma EscapeSpells(x: Symbol)
    requires x.Ch?
    ensures var c, t := x.code, EscapeOne(x);
            && (c == '"' as int ==> t == Lit("\\\""))
            && (c == '\\' as int ==> t == Lit("\\\\"))
            && (c == 8 ==> t == Lit("\\b")) && (c == 9 ==> t == Lit("\\t")) && (c == 10 ==> t == Lit("\\n"))
            && (c == 12 ==> t == Lit("\\f")) && (c == 13 ==> t == Lit("\\r"))
            && (0x20 <= c <= 0x7E && c != '"' as int && c != '\\' as int ==> t == [x])
            && (c < 0x20 && c != 8 && c != 9 && c != 10 && c != 12 && c != 13 ==> HexEscape(t, c))
            && (0x7E < c < 0x1_0000 ==> HexEscape(t, c))
            && (c >= 0x1_0000 ==>
                  && |t| == 12 && HexEscape(t[..6], 0xD800 + (c - 0x1_0000) / 1024)
                  && HexEscape(t[6..], 0xDC00 + (c - 0x1_0000) % 1024))
  {
    hide UnicodeEscape, HexEscape;
    var c := x.code;
    if c < 0x1_0000 {
      UnicodeEscapeIsHex(c);
    } else {
      UnicodeEscapeIsHex(HighHalf(c));
      UnicodeEscapeIsHex(LowHalf(c));
      var t := EscapeOne(x);
      assert t[..6] == UnicodeEscape(HighHalf(c)) && t[6..] == UnicodeEscape(LowHalf(c));
    }
  }

  // ---------------------------------------------------------------- reading strings

  function ReadShortEscape(c: CodePoint): Option<CodePoint> {
    if c == 0x22 || c == 0x5C || c == 0x2F then Some(c)
    else if c == 0x62 then Some(8)
    else if c == 0x74 then Some(9)
    else if c == 0x6E then Some(10)
    else if c == 0x66 then Some(12)
    else if c == 0x72 then Some(13)
    else None
  }

  datatype One = NoOne | One(symbol: Symbol, length: nat)

  /** One character of a JSON string, with two joined escapes counting as one character. */
  function ScanOne(s: Text): (r: One)
    requires s != [] && s[0] != QUOTE
    ensures r.One? ==> 1 <= r.length <= |s|
  {
    if s[0] != BACKSLASH then
      if s[0].Ch? && s[0].code < 0x20 then NoOne else One(s[0], 1)
    else if |s| < 2 || !s[1].Ch? then NoOne
    else if s[1] != LOWER_U then
      match ReadShortEscape(s[1].code)
      case Some(c) => One(Ch(c), 2)
      case None => NoOne
    else
      match ReadUnicodeEscape(s)
      case None => NoOne
      case Some(n) =>
        var next := ReadUnicodeEscape(s[6..]);
        if IsHighSurrogate(n) && next.Some? && IsLowSurrogate(next.value)
        then One(Ch(Pair(n, next.value)), 12)
        else One(Ch(n), 6)
  }

  /** Outside escapes, control characters are refused and every other character stands for itself. */
  lemma PlainCharactersRead(x: Symbol, tail: Text)
    requires x != QUOTE && x != BACKSLASH
    ensures ScanOne([x] + tail) == if x.Ch? && x.code < 0x20 then NoOne else One(x, 1)
  {
  }

  datatype Scanned = NoScan | Scanned(value: Text, rest: Text)

  /** The characters of a JSON string after its opening quote, up to its closing quote. */
  function ScanString(s: Text): (r: Scanned)
    ensures r.Scanned? ==> |r.rest| < |s|
  {
    if s == [] then NoScan
    else if s[0] == QUOTE then Scanned([], s[1..])
    else
      match ScanOne(s)
      case NoOne => NoScan
      case One(x, n) =>
        match ScanString(s[n..])
        case NoScan => NoScan
        case Scanned(value, rest) => Scanned([x] + value, rest)
  }

  lemma EscapeOneHead(x: Symbol, after: Text)
    ensures var e := ReadUnicodeEscape(EscapeOne(x) + after);
            e.Some? && IsLowSurrogate(e.value) <==> Low(x)
  {
    hide UnicodeEscape, HighHalf, LowHalf, ReadUnicodeEscape;
    var s := EscapeOne(x) + after;
    assert s[0] == EscapeOne(x)[0];
    if x.Ch? && ShortEscape(x.code).Some? {
      assert s[1] == Ch(ShortEscape(x.code).value);
    } else if x.Ch? && !(0x20 <= x.code <= 0x7E) {
      if x.code < 0x1_0000 {
        UnicodeEscapeRead(x.code, after);
      } else {
        assert s == UnicodeEscape(HighHalf(x.code)) + (UnicodeEscape(LowHalf(x.code)) + after);
        UnicodeEscapeRead(HighHalf(x.code), UnicodeEscape(LowHalf(x.code)) + after);
      }
    }
  }

  /** Printed text starts with a low-surrogate escape only if the string starts with one. */
  lemma EscapeHead(t: Text, tail: Text)
    requires tail != [] && tail[0] == QUOTE
    ensures var e := ReadUnicodeEscape(Escape(t) + tail);
            e.Some? && IsLowSurrogate(e.value) <==> t != [] && Low(t[0])
  {
    hide EscapeOne, ReadUnicodeEscape;
    if t == [] {
      assert Escape(t) + tail == tail;
    } else {
      assert Escape(t) + tail == EscapeOne(t[0]) + (Escape(t[1..]) + tail);
      EscapeOneHead(t[0], Escape(t[1..]) + tail);
    }
  }

  /** Reading the print of one character, when it does not pair up with the next. */
  lemma ScanShortEscape(c: CodePoint, after: Text)
    requires ShortEscape(c).Some?
    ensures ScanOne([BACKSLASH, Ch(ShortEscape(c).value)] + after) == One(Ch(c), 2)
  {
    hide ReadUnicodeEscape;
    var s := [BACKSLASH, Ch(ShortEscape(c).value)] + after;
    assert s[0] == BACKSLASH && s[1] == Ch(ShortEscape(c).value);
  }

  lemma ScanUnicodeEscape(n: nat, t: Text, tail: Text)
    requires n < 0x1_0000 && tail != [] && tail[0] == QUOTE
    requires !(IsHighSurrogate(n) && t != [] && Low(t[0]))
    ensures ScanOne(UnicodeEscape(n) + (Escape(t) + tail)) == One(Ch(n), 6)
  {
    hide UnicodeEscape, ReadUnicodeEscape, Escape;
    var after := Escape(t) + tail;
    var s := UnicodeEscape(n) + after;
    UnicodeEscapeRead(n, after);
    assert s[6..] == after;
    EscapeHead(t, tail);
  }

  lemma ScanEscapeOne(x: Symbol, t: Text, tail: Text)
    requires tail != [] && tail[0] == QUOTE
    requires !(High(x) && t != [] && Low(t[0]))
    ensures ScanOne(EscapeOne(x) + (Escape(t) + tail)) == One(x, |EscapeOne(x)|)
  {
    hide UnicodeEscape, ReadUnicodeEscape, HighHalf, LowHalf, Escape, ShortEscape, ScanOne;
    var after := Escape(t) + tail;
    if x.Ch? && ShortEscape(x.code).Some? {
      ScanShortEscape(x.code, after);
    } else if x.Ch? && !(0x20 <= x.code <= 0x7E) {
      if x.code < 0x1_0000 { ScanUnicodeEscape(x.code, t, tail); } else { ScanPair(x.code, after); }
    } else {
      PlainEscape(x);
      PlainCharactersRead(x, after);
    }
  }

  lemma PlainEscape(x: Symbol)
    requires !(x.Ch? && ShortEscape(x.code).Some?)
    ensures x != QUOTE && x != BACKSLASH
  {
  }

  lemma ScanPair(c: CodePoint, after: Text)
    requires c >= 0x1_0000
    ensures |EscapeOne(Ch(c))| == 12
    ensures ScanOne(EscapeOne(Ch(c)) + after) == One(Ch(c), 12)
  {
    hide UnicodeEscape, ReadUnicodeEscape, HighHalf, LowHalf, Pair;
    var h := HighHalf(c);
    var l := LowHalf(c);
    HalvesPair(c);
    var s := EscapeOne(Ch(c)) + after;
    assert s == UnicodeEscape(h) + (UnicodeEscape(l) + after);
    assert s[6..] == UnicodeEscape(l) + after;
    UnicodeEscapeRead(h, UnicodeEscape(l) + after);
    UnicodeEscapeRead(l, after);
    assert s[0] == BACKSLASH && s[1] == LOWER_U;
  }

  /** Reading a printed string gives the string with its split pairs joined. */
  lemma {:induction false} ScanEscape(t: Text, rest: Text)
    ensures ScanString(Escape(t) + ([QUOTE] + rest)) == Scanned(Joined(t), rest)
  {
    hide EscapeOne, ScanOne;
    var tail := [QUOTE] + rest;
    assert tail[0] == QUOTE;
    if t == [] {
      assert Escape(t) + tail == tail;
      assert tail[1..] == rest;
    } else if |t| >= 2 && High(t[0]) && Low(t[1]) {
      var c := Pair(t[0].code, t[1].code);
      EscapePair(t);
      assert Escape(t) + tail == EscapeOne(Ch(c)) + (Escape(t[2..]) + tail);
      ScanPair(c, Escape(t[2..]) + tail);
      ScanStep(Ch(c), Escape(t) + tail, Escape(t[2..]) + tail, 12);
      ScanEscape(t[2..], rest);
    } else {
      assert Escape(t) + tail == EscapeOne(t[0]) + (Escape(t[1..]) + tail);
      ScanStep(t[0], Escape(t) + tail, Escape(t[1..]) + tail, |EscapeOne(t[0])|) by {
        ScanEscapeOne(t[0], t[1..], tail);
      }
      ScanEscape(t[1..], rest);
    }
  }

  lemma ScanStep(x: Symbol, s: Text, after: Text, n: nat)
    requires s != [] && s[0] != QUOTE && n <= |s| && s[n..] == after
    requires ScanOne(s) == One(x, n)
    ensures ScanString(s) == match ScanString(after)
                             case NoScan => NoScan
                             case Scanned(value, rest) => Scanned([x] + value, rest)
  {
  }

  /** A split pair prints exactly as the character it encodes. */
  lemma EscapePair(t: Text)
    requires |t| >= 2 && High(t[0]) && Low(t[1])
    ensures Escape(t) == EscapeOne(Ch(Pair(t[0].code, t[1].code))) + Escape(t[2..])
  {
    hide UnicodeEscape, HighHalf, LowHalf, Pair;
    var c := Pair(t[0].code, t[1].code);
    PairHalves(t[0].code, t[1].code);
    assert t[1..][1..] == t[2..];
    assert Escape(t[1..]) == EscapeOne(t[1]) + Escape(t[2..]);
  }

  lemma {:induction false} EscapeJoined(t: Text)
    ensures Escape(Joined(t)) == Escape(t)
  {
    if t == [] {
    } else if |t| >= 2 && High(t[0]) && Low(t[1]) {
      EscapeJoined(t[2..]);
      EscapePair(t);
      assert Joined(t)[1..] == Joined(t[2..]);
    } else {
      EscapeJoined(t[1..]);
      assert Joined(t)[1..] == Joined(t[1..]);
    }
  }

  /** Two strings print alike exactly when they join alike. */
  lemma EscapeInjective(a: Text, b: Text)
    ensures Escape(a) == Escape(b) <==> Joined(a) == Joined(b)
  {
    ScanEscape(a, []);
    ScanEscape(b, []);
    EscapeJoined(a);
    EscapeJoined(b);
  }

  // ---------------------------------------------------------------- values

  datatype Json =
    | JNull
    | JBool(b: bool)
    | JNumber(lexeme: Text)
    | JString(text: Text)
    | JArray(items: seq<Json>)
    | JObject(members: map<Text, Json>)

  datatype Parsed = NoParse | Parsed(value: Json, rest: Text)

  predicate JsonSpace(x: Symbol) { x.Ch? && (x.code == 0x20 || x.code == 9 || x.code == 10 || x.code == 13) }

  function SkipSpace(s: Text): (r: Text)
    ensures |r| <= |s| && r == s[|s| - |r|..]
  {
    if s != [] && JsonSpace(s[0]) then SkipSpace(s[1..]) else s
  }

  predicate DecimalDigit(x: Symbol) { x.Ch? && 0x30 <= x.code <= 0x39 }

  datatype NumberPart = LeadingZero | Integer | Fraction | Exponent

  /** Consume what can still belong to a number, given the part being read. */
  function SkipNumber(s: Text, part: NumberPart): (r: Text)
    ensures |r| <= |s| && r == s[|s| - |r|..]
  {
    if s == [] then s
    else if DecimalDigit(s[0]) && part != LeadingZero then SkipNumber(s[1..], part)
    else if (part == LeadingZero || part == Integer) && s[0] == Ch(0x2E) && |s| >= 2 && DecimalDigit(s[1]) then
      SkipNumber(s[1..], Fraction)
    else if part != Exponent && (s[0] == Ch(0x65) || s[0] == Ch(0x45)) then
      var sign := if |s| >= 2 && (s[1] == Ch(0x2B) || s[1] == Ch(0x2D)) then 2 else 1;
      if |s| > sign && DecimalDigit(s[sign]) then SkipNumber(s[sign..], Exponent) else s
    else s
  }

  const KEYWORDS: seq<string> := ["null", "true", "false", "NaN", "Infinity", "-Infinity"]

  /** The first keyword, from index k on, at the head of the text. */
  function FindKeyword(s: Text, k: nat): (r: Option<string>)
    requires k <= |KEYWORDS|
    ensures r.Some? ==> 0 < |r.value| <= |s|
    decreases |KEYWORDS| - k
  {
    if k == |KEYWORDS| then None
    else if |KEYWORDS[k]| <= |s| && s[..|KEYWORDS[k]|] == Lit(KEYWORDS[k]) then Some(KEYWORDS[k])
    else FindKeyword(s, k + 1)
  }

  /** A number from its first digit on. */
  function ParseNumber(s: Text): (r: Option<Text>)
    ensures r.Some? ==> |r.value| < |s| && r.value == s[|s| - |r.value|..]
  {
    if s == [] || !DecimalDigit(s[0]) then None
    else Some(SkipNumber(s[1..], if s[0] == Ch(0x30) then LeadingZero else Integer))
  }

  /** null, true, false, NaN, Infinity, -Infinity and the numbers. */
  function ParseScalar(s: Text): (r: Parsed)
    requires s != []
    ensures r.Parsed? ==> |r.rest| < |s| && r.rest == s[|s| - |r.rest|..] && !r.value.JString? && !r.value.JObject?
  {
    match FindKeyword(s, 0)
    case Some(word) =>
      var value := if word == "null" then JNull
                   else if word == "true" then JBool(true)
                   else if word == "false" then JBool(false)
                   else JNumber(Lit(word));
      Parsed(value, s[|word|..])
    case None =>
      var minus := if s[0] == Ch(0x2D) then 1 else 0;
      match ParseNumber(s[minus..])
      case Some(rest) => Parsed(JNumber(s[..|s| - |rest|]), rest)
      case None => NoParse
  }

  function ParseValue(s: Text): (r: Parsed)
    ensures r.Parsed? ==> |r.rest| < |s|
    decreases |s|, 0
  {
    if s == [] then NoParse
    else if s[0] == QUOTE then
      match ScanString(s[1..])
      case NoScan => NoParse
      case Scanned(value, rest) => Parsed(JString(value), rest)
    else if s[0] == OPEN_BRACE then
      var t := SkipSpace(s[1..]);
      if t != [] && t[0] == CLOSE_BRACE then Parsed(JObject(map[]), t[1..]) else ParseMembers(t, map[])
    else if s[0] == OPEN_BRACKET then
      var t := SkipSpace(s[1..]);
      if t != [] && t[0] == CLOSE_BRACKET then Parsed(JArray([]), t[1..]) else ParseItems(t, [])
    else ParseScalar(s)
  }

  /** The members of an object from a key on; a repeated key keeps its last value. */
  function ParseMembers(s: Text, found: map<Text, Json>): (r: Parsed)
    ensures r.Parsed? ==> |r.rest| < |s|
    decreases |s|, 1
  {
    if s == [] || s[0] != QUOTE then NoParse
    else
      match ScanString(s[1..])
      case NoScan => NoParse
      case Scanned(key, afterKey) =>
        var colon := SkipSpace(afterKey);
        if colon == [] || colon[0] != COLON then NoParse
        else
          match ParseValue(SkipSpace(colon[1..]))
          case NoParse => NoParse
          case Parsed(value, afterValue) =>
            var t := SkipSpace(afterValue);
            if t == [] then NoParse
            else if t[0] == COMMA then ParseMembers(SkipSpace(t[1..]), found[key := value])
            else if t[0] == CLOSE_BRACE then Parsed(JObject(found[key := value]), t[1..])
            else NoParse
  }

  function ParseItems(s: Text, found: seq<Json>): (r: Parsed)
    ensures r.Parsed? ==> |r.rest| < |s| && r.value.JArray?
    decreases |s|, 1
  {
    match ParseValue(s)
    case NoParse => NoParse
    case Parsed(value, afterValue) =>
      var t := SkipSpace(afterValue);
      if t == [] then NoParse
      else if t[0] == COMMA then ParseItems(SkipSpace(t[1..]), found + [value])
      else if t[0] == CLOSE_BRACKET then Parsed(JArray(found + [value]), t[1..])
      else NoParse
  }

  /** `json.loads`; None is a ValueError. */
  function Loads(s: Text): Option<Json> {
    match ParseValue(SkipSpace(s))
    case NoParse => None
    case Parsed(value, rest) => if SkipSpace(rest) == [] then Some(value) else None
  }

  // ---------------------------------------------------------------- printing flat objects

  datatype Member = Member(key: Text, value: Text)

  function PrintMember(m: Member): Text {
    PrintString(m.key) + [COLON] + PrintString(m.value)
  }

  function PrintMembers(ms: seq<Member>): Text {
    if ms == [] then []
    else if |ms| == 1 then PrintMember(ms[0])
    else PrintMember(ms[0]) + [COMMA] + PrintMembers(ms[1..])
  }

  /** `dumps(mapping, separators=(",", ":"))` for members already in key order. */
  function PrintObject(ms: seq<Member>): Text {
    [OPEN_BRACE] + PrintMembers(ms) + [CLOSE_BRACE]
  }

  /** Code point order of texts: after n equal characters the first is over or has the smaller character. */
  predicate LessAt(a: Text, b: Text, n: nat) {
    && n <= |a| && n < |b| && a[..n] == b[..n]
    && (n == |a| || (a[n].Ch? && b[n].Ch? && a[n].code < b[n].code))
  }

  ghost predicate Less(a: Text, b: Text) { exists n: nat :: LessAt(a, b, n) }

  /** The keys stand in strictly ascending order, as `sort_keys=True` puts them. */
  ghost predicate KeysAscend(ms: seq<Member>) {
    forall i | 0 < i < |ms| :: Less(ms[i - 1].key, ms[i].key)
  }

  lemma LitsAscend(s: string, t: string, n: nat)
    requires n <= |s| && n < |t| && s[..n] == t[..n] && (n == |s| || s[n] < t[n])
    ensures Less(Lit(s), Lit(t))
  {
    assert Lit(s)[..n] == Lit(t)[..n] by {
      forall i | 0 <= i < n ensures Lit(s)[i] == Lit(t)[i] { assert s[i] == s[..n][i] && t[i] == t[..n][i]; }
    }
    assert LessAt(Lit(s), Lit(t), n);
  }

  lemma InitialsAscend(s: string, t: string)
    requires s != [] && t != [] && s[0] < t[0]
    ensures Less(Lit(s), Lit(t))
  {
    assert s[..0] == t[..0];
    LitsAscend(s, t, 0);
  }

  /** A string prints as its escaped characters between quotes, and nothing between them. */
  lemma {:induction false} StringPrints(t: Text, parts: seq<Text>)
    requires |parts| == |t| && forall i | 0 <= i < |t| :: parts[i] == EscapeOne(t[i])
    ensures PrintString(t) == Lit("\"") + Join([], parts) + Lit("\"")
  {
    hide EscapeOne;
    EscapeJoins(t, parts);
    assert Lit("\"") == [QUOTE];
  }

  lemma {:induction false} EscapeJoins(t: Text, parts: seq<Text>)
    requires |parts| == |t| && forall i | 0 <= i < |t| :: parts[i] == EscapeOne(t[i])
    ensures Escape(t) == Join([], parts)
  {
    hide EscapeOne;
    if t != [] {
      EscapeJoins(t[1..], parts[1..]);
      if |t| == 1 { assert Escape(t[1..]) == []; }
    }
  }

  /** The members of an object print one after another with no space between tokens. */
  lemma PrintsCompactly(ms: seq<Member>, parts: seq<Text>)
    requires |parts| == |ms|
    requires forall i | 0 <= i < |ms| :: parts[i] == PrintString(ms[i].key) + Lit(":") + PrintString(ms[i].value)
    ensures PrintObject(ms) == Lit("{") + Join(Lit(","), parts) + Lit("}")
  {
    hide PrintString;
    MembersJoin(ms, parts);
    assert Lit("{") == [OPEN_BRACE] && Lit("}") == [CLOSE_BRACE];
  }

  lemma {:induction false} MembersJoin(ms: seq<Member>, parts: seq<Text>)
    requires |parts| == |ms|
    requires forall i | 0 <= i < |ms| :: parts[i] == PrintString(ms[i].key) + Lit(":") + PrintString(ms[i].value)
    ensures PrintMembers(ms) == Join(Lit(","), parts)
  {
    hide PrintString;
    assert Lit(":") == [COLON] && Lit(",") == [COMMA];
    if |ms| > 1 {
      assert forall i | 0 <= i < |ms[1..]| :: ms[1..][i] == ms[i + 1] && parts[1..][i] == parts[i + 1];
      MembersJoin(ms[1..], parts[1..]);
    }
  }

  function Collect(ms: seq<Member>, found: map<Text, Json>): map<Text, Json> {
    if ms == [] then found
    else Collect(ms[1..], found[Joined(ms[0].key) := JString(Joined(ms[0].value))])
  }

  lemma ScanPrintedString(t: Text, rest: Text)
    ensures var s := PrintString(t) + rest;
            s[0] == QUOTE && ScanString(s[1..]) == Scanned(Joined(t), rest)
  {
    hide Escape, ScanString, Joined;
    var s := PrintString(t) + rest;
    assert s[1..] == Escape(t) + ([QUOTE] + rest);
    ScanEscape(t, rest);
  }

  lemma ParseStringValue(s: Text)
    requires s != [] && s[0] == QUOTE
    ensures ParseValue(s) == match ScanString(s[1..])
                             case NoScan => NoParse
                             case Scanned(value, rest) => Parsed(JString(value), rest)
    ensures SkipSpace(s) == s
  {
    hide ScanString, ParseScalar, ParseMembers, ParseItems;
  }

  lemma NoSpaceToSkip(s: Text)
    ensures s != [] && (!JsonSpace(s[0]) || s[0] == COLON) ==> SkipSpace(s) == s
  {
  }

  lemma ParseMembersStep(s: Text, found: map<Text, Json>, key: Text, afterKey: Text, value: Json, rest: Text)
    requires s != [] && s[0] == QUOTE && ScanString(s[1..]) == Scanned(key, afterKey)
    requires afterKey != [] && afterKey[0] == COLON
    requires ParseValue(SkipSpace(afterKey[1..])) == Parsed(value, rest)
    requires rest != [] && !JsonSpace(rest[0])
    ensures rest[0] == COMMA ==> ParseMembers(s, found) == ParseMembers(SkipSpace(rest[1..]), found[key := value])
    ensures rest[0] == CLOSE_BRACE ==> ParseMembers(s, found) == Parsed(JObject(found[key := value]), rest[1..])
  {
    hide ScanString, ParseValue, SkipSpace, JsonSpace;
    NoSpaceToSkip(afterKey);
    NoSpaceToSkip(rest);
  }

  /** The first member of a printed object, read back. */
  lemma ParseMember(m: Member, rest: Text, found: map<Text, Json>)
    requires rest != [] && !JsonSpace(rest[0])
    ensures var s := PrintMember(m) + rest;
            var next := found[Joined(m.key) := JString(Joined(m.value))];
            && s[0] == QUOTE
            && (rest[0] == COMMA ==> ParseMembers(s, found) == ParseMembers(SkipSpace(rest[1..]), next))
            && (rest[0] == CLOSE_BRACE ==> ParseMembers(s, found) == Parsed(JObject(next), rest[1..]))
  {
    hide ScanString, ParseValue, ParseMembers, Joined, PrintString, SkipSpace;
    MemberParts(m, rest);
    var s := PrintMember(m) + rest;
    var value := PrintString(m.value) + rest;
    var afterKey := [COLON] + value;
    ScanPrintedString(m.key, afterKey);
    ScanPrintedString(m.value, rest);
    ParseStringValue(value);
    assert afterKey[1..] == value;
    ParseMembersStep(s, found, Joined(m.key), afterKey, JString(Joined(m.value)), rest);
  }

  lemma MemberParts(m: Member, rest: Text)
    ensures PrintMember(m) + rest == PrintString(m.key) + ([COLON] + (PrintString(m.value) + rest))
  {
    hide PrintString;
  }

  lemma {:induction false} ParsePrintedMembers(ms: seq<Member>, found: map<Text, Json>)
    requires ms != []
    ensures var s := PrintMembers(ms) + [CLOSE_BRACE];
            s[0] == QUOTE && ParseMembers(s, found) == Parsed(JObject(Collect(ms, found)), [])
    decreases |ms|
  {
    hide ParseMembers, Joined, PrintMember;
    var next := found[Joined(ms[0].key) := JString(Joined(ms[0].value))];
    if |ms| == 1 {
      ParseMember(ms[0], [CLOSE_BRACE], found);
      assert Collect(ms[1..], next) == next;
    } else {
      var tail := PrintMembers(ms[1..]) + [CLOSE_BRACE];
      var rest := [COMMA] + tail;
      assert PrintMembers(ms) + [CLOSE_BRACE] == PrintMember(ms[0]) + rest;
      ParseMember(ms[0], rest, found);
      assert rest[1..] == tail;
      ParsePrintedMembers(ms[1..], next);
      assert SkipSpace(tail) == tail;
    }
  }

  lemma ParseObjectValue(s: Text)
    requires |s| >= 2 && s[0] == OPEN_BRACE && s[1] == QUOTE
    ensures SkipSpace(s) == s && ParseValue(s) == ParseMembers(s[1..], map[])
  {
    hide ScanString, ParseScalar, ParseItems, ParseMembers;
    assert SkipSpace(s[1..]) == s[1..];
  }

  /** `loads(dumps(mapping))`: the same mapping with split pairs joined. */
  lemma LoadsPrintObject(ms: seq<Member>)
    requires ms != []
    ensures Loads(PrintObject(ms)) == Some(JObject(Collect(ms, map[])))
  {
    hide ParseValue, ParseMembers, PrintMembers, Collect;
    var s := PrintObject(ms);
    assert s[1..] == PrintMembers(ms) + [CLOSE_BRACE];
    ParsePrintedMembers(ms, map[]);
    assert s[1..][0] == QUOTE;
    ParseObjectValue(s);
  }

  /** Printed objects are equal exactly when their members join alike, in order. */
  lemma {:induction false} PrintMembersInjective(a: seq<Member>, b: seq<Member>)
    requires |a| == |b|
    ensures PrintMembers(a) + [CLOSE_BRACE] == PrintMembers(b) + [CLOSE_BRACE] <==>
            forall i | 0 <= i < |a| :: Joined(a[i].key) == Joined(b[i].key) && Joined(a[i].value) == Joined(b[i].value)
  {
    hide Joined, PrintMember;
    if a != [] {
      var ra := if |a| == 1 then [CLOSE_BRACE] else [COMMA] + (PrintMembers(a[1..]) + [CLOSE_BRACE]);
      var rb := if |a| == 1 then [CLOSE_BRACE] else [COMMA] + (PrintMembers(b[1..]) + [CLOSE_BRACE]);
      assert PrintMembers(a) + [CLOSE_BRACE] == PrintMember(a[0]) + ra;
      assert PrintMembers(b) + [CLOSE_BRACE] == PrintMember(b[0]) + rb;
      PrintMemberInjective(a[0], ra, b[0], rb);
      PrintMembersInjective(a[1..], b[1..]);
      assert |a| > 1 ==>
          ra[1..] == PrintMembers(a[1..]) + [CLOSE_BRACE] && rb[1..] == PrintMembers(b[1..]) + [CLOSE_BRACE];
      SplitForall(a, b);
    }
  }

  lemma SplitForall(a: seq<Member>, b: seq<Member>)
    requires |a| == |b| > 0
    ensures (forall i | 0 <= i < |a| ::
               Joined(a[i].key) == Joined(b[i].key) && Joined(a[i].value) == Joined(b[i].value))
       <==> && Joined(a[0].key) == Joined(b[0].key) && Joined(a[0].value) == Joined(b[0].value)
            && forall i | 0 <= i < |a[1..]| ::
                 Joined(a[1..][i].key) == Joined(b[1..][i].key) && Joined(a[1..][i].value) == Joined(b[1..][i].value)
  {
    hide Joined;
    assert forall i | 0 < i < |a| :: a[i] == a[1..][i - 1] && b[i] == b[1..][i - 1];
  }

  lemma PrintStringInjective(a: Text, ra: Text, b: Text, rb: Text)
    ensures PrintString(a) + ra == PrintString(b) + rb <==> Joined(a) == Joined(b) && ra == rb
  {
    hide ScanString, Joined, Escape;
    ScanPrintedString(a, ra);
    ScanPrintedString(b, rb);
    EscapeInjective(a, b);
  }

  lemma PrintMemberInjective(m: Member, rm: Text, n: Member, rn: Text)
    ensures PrintMember(m) + rm == PrintMember(n) + rn <==>
            Joined(m.key) == Joined(n.key) && Joined(m.value) == Joined(n.value) && rm == rn
  {
    hide Joined, PrintString, PrintMember;
    MemberParts(m, rm);
    MemberParts(n, rn);
    var vm := PrintString(m.value) + rm;
    var vn := PrintString(n.value) + rn;
    PrintStringInjective(m.key, [COLON] + vm, n.key, [COLON] + vn);
    assert ([COLON] + vm)[1..] == vm && ([COLON] + vn)[1..] == vn;
    PrintStringInjective(m.value, rm, n.value, rn);
  }

  lemma PrintObjectInjective(a: seq<Member>, b: seq<Member>)
    requires |a| == |b|
    ensures PrintObject(a) == PrintObject(b) <==>
            forall i | 0 <= i < |a| :: Joined(a[i].key) == Joined(b[i].key) && Joined(a[i].value) == Joined(b[i].value)
  {
    hide PrintMembers, Joined;
    PrintMembersInjective(a, b);
    assert PrintObject(a)[1..] == PrintMembers(a) + [CLOSE_BRACE];
    assert PrintObject(b)[1..] == PrintMembers(b) + [CLOSE_BRACE];
  }

  // ---------------------------------------------------------------- what reading can return

  /** Text that came out of a strict UTF-8 decoder: characters only, no surrogates. */
  predicate Utf8Text(s: Text) {
    forall i | 0 <= i < |s| :: s[i].Ch? && !High(s[i]) && !Low(s[i])
  }

  /** A string `loads` can return for such input. */
  predicate Readable(t: Text) {
    NoSplitPair(t) && forall i | 0 <= i < |t| :: t[i].Ch?
  }

  predicate ReadableStrings(v: Json) {
    match v
    case JString(t) => Readable(t)
    case JObject(ms) => forall k | k in ms :: ms[k].JString? ==> Readable(ms[k].text)
    case _ => true
  }

  /** One read character is no digest; a surrogate comes from an escape, and no low one follows a high one. */
  lemma OneIsReadable(s: Text)
    requires Utf8Text(s) && s != [] && s[0] != QUOTE && ScanOne(s).One?
    ensures var one := ScanOne(s);
            && one.symbol.Ch?
            && (Low(one.symbol) ==> ReadUnicodeEscape(s).Some? && IsLowSurrogate(ReadUnicodeEscape(s).value))
            && (High(one.symbol) ==>
                  var next := ReadUnicodeEscape(s[one.length..]);
                  !(next.Some? && IsLowSurrogate(next.value)))
  {
    hide ReadUnicodeEscape;
  }

  lemma {:induction false} ScanIsReadable(s: Text)
    requires Utf8Text(s) && ScanString(s).Scanned?
    ensures Readable(ScanString(s).value) && Utf8Text(ScanString(s).rest)
    ensures var v := ScanString(s).value;
            v != [] && Low(v[0]) ==> ReadUnicodeEscape(s).Some? && IsLowSurrogate(ReadUnicodeEscape(s).value)
    decreases |s|
  {
    hide ScanOne, ReadUnicodeEscape, Utf8Text;
    if s[0] != QUOTE {
      var one := ScanOne(s);
      var t := s[one.length..];
      SuffixIsUtf8(s, one.length);
      OneIsReadable(s);
      ScanIsReadable(t);
      var v := ScanString(t).value;
      var w := ScanString(s).value;
      assert w == [one.symbol] + v;
      forall i | 0 <= i < |w| - 1 ensures !(High(w[i]) && Low(w[i + 1])) {
        if i > 0 { assert w[i] == v[i - 1] && w[i + 1] == v[i]; }
      }
    } else {
      SuffixIsUtf8(s, 1);
    }
  }

  lemma SuffixIsUtf8(s: Text, n: nat)
    requires Utf8Text(s) && n <= |s|
    ensures Utf8Text(s[n..])
  {
    assert forall i | 0 <= i < |s[n..]| :: s[n..][i] == s[i + n];
  }

  lemma SkipIsUtf8(s: Text)
    requires Utf8Text(s)
    ensures Utf8Text(SkipSpace(s))
  {
    SuffixIsUtf8(s, |s| - |SkipSpace(s)|);
  }

  lemma {:induction false} ParseIsReadable(s: Text)
    requires Utf8Text(s) && ParseValue(s).Parsed?
    ensures ReadableStrings(ParseValue(s).value) && Utf8Text(ParseValue(s).rest)
    decreases |s|, 0
  {
    hide ScanString, SkipSpace, Utf8Text, ParseScalar;
    SuffixIsUtf8(s, 1);
    if s[0] == QUOTE {
      ScanIsReadable(s[1..]);
    } else if s[0] == OPEN_BRACE || s[0] == OPEN_BRACKET {
      SkipIsUtf8(s[1..]);
      var t := SkipSpace(s[1..]);
      if t != [] { SuffixIsUtf8(t, 1); }
      if s[0] == OPEN_BRACE && !(t != [] && t[0] == CLOSE_BRACE) {
        MembersAreReadable(t, map[]);
      } else if s[0] == OPEN_BRACKET && !(t != [] && t[0] == CLOSE_BRACKET) {
        ItemsAreReadable(t, []);
      }
    } else {
      SuffixIsUtf8(s, |s| - |ParseScalar(s).rest|);
    }
  }

  lemma {:induction false} MembersAreReadable(s: Text, found: map<Text, Json>)
    requires Utf8Text(s) && ParseMembers(s, found).Parsed?
    requires ReadableStrings(JObject(found))
    ensures ReadableStrings(ParseMembers(s, found).value) && Utf8Text(ParseMembers(s, found).rest)
    decreases |s|, 1
  {
    hide ScanString, ParseValue, SkipSpace, Utf8Text, ReadableStrings;
    SuffixIsUtf8(s, 1);
    var key := ScanString(s[1..]);
    ScanIsReadable(s[1..]);
    SkipIsUtf8(key.rest);
    var colon := SkipSpace(key.rest);
    SuffixIsUtf8(colon, 1);
    SkipIsUtf8(colon[1..]);
    var value := ParseValue(SkipSpace(colon[1..]));
    ParseIsReadable(SkipSpace(colon[1..]));
    SkipIsUtf8(value.rest);
    var t := SkipSpace(value.rest);
    SuffixIsUtf8(t, 1);
    ReadableUpdate(found, key.value, value.value);
    if t[0] == COMMA {
      SkipIsUtf8(t[1..]);
      MembersAreReadable(SkipSpace(t[1..]), found[key.value := value.value]);
    }
  }

  lemma ReadableUpdate(found: map<Text, Json>, key: Text, value: Json)
    requires ReadableStrings(JObject(found)) && ReadableStrings(value)
    ensures ReadableStrings(JObject(found[key := value]))
  {
  }

  lemma {:induction false} ItemsAreReadable(s: Text, found: seq<Json>)
    requires Utf8Text(s) && ParseItems(s, found).Parsed?
    ensures Utf8Text(ParseItems(s, found).rest)
    decreases |s|, 1
  {
    ParseIsReadable(s);
    var value := ParseValue(s);
    SkipIsUtf8(value.rest);
    var t := SkipSpace(value.rest);
    SuffixIsUtf8(t, 1);
    if t[0] == COMMA {
      SkipIsUtf8(t[1..]);
      ItemsAreReadable(SkipSpace(t[1..]), found + [value.value]);
    }
  }

  /** Every string in a loaded object is free of split surrogate pairs. */
  lemma LoadsIsReadable(s: Text)
    requires Utf8Text(s) && Loads(s).Some?
    ensures ReadableStrings(Loads(s).value)
  {
    SkipIsUtf8(s);
    ParseIsReadable(SkipSpace(s));
  }

  // ---------------------------------------------------------------- what printing emits

  predicate Plain(t: Text) { forall i | 0 <= i < |t| :: t[i].Ch? }

  lemma {:induction false} JoinedIsPlain(t: Text)
    requires Plain(t)
    ensures Plain(Joined(t))
  {
    if t != [] {
      var r := if |t| >= 2 && High(t[0]) && Low(t[1]) then t[2..] else t[1..];
      JoinedIsPlain(r);
    }
  }

  predicate Ascii(t: Text) { forall i | 0 <= i < |t| :: t[i].Ch? && t[i].code < 0x80 }

  lemma {:induction false} EscapeIsAscii(t: Text)
    requires Plain(t)
    ensures Ascii(Escape(t))
  {
    hide EscapeOne;
    if t != [] {
      assert Plain(t[1..]) by { assert forall i | 0 <= i < |t[1..]| :: t[1..][i] == t[i + 1]; }
      EscapeIsAscii(t[1..]);
    }
  }

  lemma {:induction false} PrintMembersIsAscii(ms: seq<Member>)
    requires forall k | 0 <= k < |ms| :: Plain(ms[k].key) && Plain(ms[k].value)
    ensures Ascii(PrintMembers(ms))
  {
    hide Escape;
    if ms != [] {
      EscapeIsAscii(ms[0].key);
      EscapeIsAscii(ms[0].value);
      PrintMembersIsAscii(ms[1..]);
    }
  }
}
