/**
 The JSON texts Python reads, as a grammar: a syntax tree spells every choice of a text out, and
 `LoadsExactly` says that the reader takes a text for a value exactly when some tree, with space around
 it, writes that text and means that value (section 2 of RFC 8259, with Python's NaN and infinities).
 */
module JsonGrammar {
  import opened Wrappers
  import opened Texts
  import opened Json

  // ---------------------------------------------------------------- strings

  /** One character or escape of a string body. */
  datatype Piece = Raw(x: Symbol) | Short(letter: Symbol) | Unit(a: Symbol, b: Symbol, c: Symbol, d: Symbol)

  /** The value of a hexadecimal digit in either case; 16 for anything else. */
  function HexValue(x: Symbol): (r: int)
    ensures 0 <= r <= 16
  {
    if !x.Ch? then 16
    else if '0' as int <= x.code <= '9' as int then x.code - '0' as int
    else if 'a' as int <= x.code <= 'f' as int then 10 + x.code - 'a' as int
    else if 'A' as int <= x.code <= 'F' as int then 10 + x.code - 'A' as int
    else 16
  }

  predicate FineUnit(p: Piece)
    requires p.Unit?
  {
    HexValue(p.a) < 16 && HexValue(p.b) < 16 && HexValue(p.c) < 16 && HexValue(p.d) < 16
  }

  function UnitValue(p: Piece): CodePoint
    requires p.Unit? && FineUnit(p)
  {
    HexValue(p.a) * 4096 + HexValue(p.b) * 256 + HexValue(p.c) * 16 + HexValue(p.d)
  }

  /** The characters the eight short escapes stand for. */
  function ShortValue(letter: Symbol): Option<Symbol> {
    if letter in Lit("\"\\/") then Some(letter)
    else if letter == Ch('b' as int) then Some(Ch(8))
    else if letter == Ch('t' as int) then Some(Ch(9))
    else if letter == Ch('n' as int) then Some(Ch(10))
    else if letter == Ch('f' as int) then Some(Ch(12))
    else if letter == Ch('r' as int) then Some(Ch(13))
    else None
  }

  predicate FinePiece(p: Piece) {
    match p
    case Raw(x) => x != QUOTE && x != BACKSLASH && (x.Ch? ==> x.code >= 0x20)
    case Short(letter) => ShortValue(letter).Some?
    case Unit(_, _, _, _) => FineUnit(p)
  }

  function PieceValue(p: Piece): Symbol
    requires FinePiece(p)
  {
    match p
    case Raw(x) => x
    case Short(letter) => ShortValue(letter).value
    case Unit(_, _, _, _) => Ch(UnitValue(p))
  }

  function WritePiece(p: Piece): (t: Text)
    ensures t != []
  {
    match p
    case Raw(x) => [x]
    case Short(letter) => [BACKSLASH, letter]
    case Unit(a, b, c, d) => [BACKSLASH, LOWER_U, a, b, c, d]
  }

  function WritePieces(ps: seq<Piece>): Text {
    if ps == [] then [] else WritePiece(ps[0]) + WritePieces(ps[1..])
  }

  predicate FinePieces(ps: seq<Piece>) { forall i | 0 <= i < |ps| :: FinePiece(ps[i]) }

  /** Two escapes that are a high and a low surrogate. */
  predicate PairsUp(p: Piece, q: Piece)
    requires FinePiece(p) && FinePiece(q)
  {
    p.Unit? && q.Unit? && IsHighSurrogate(UnitValue(p)) && IsLowSurrogate(UnitValue(q))
  }

  /** The string the pieces spell: escaped surrogate pairs become one character. */
  function PiecesValue(ps: seq<Piece>): Text
    requires FinePieces(ps)
  {
    if ps == [] then []
    else if |ps| > 1 && PairsUp(ps[0], ps[1])
    then [Ch(Pair(UnitValue(ps[0]), UnitValue(ps[1])))] + PiecesValue(ps[2..])
    else [PieceValue(ps[0])] + PiecesValue(ps[1..])
  }

  lemma HexValueRead(x: Symbol)
    ensures ReadHexDigit(x) == if HexValue(x) < 16 then Some(HexValue(x)) else None
  {
  }

  lemma ReadTwo(a: Symbol, b: Symbol)
    ensures ReadHex([a, b]) ==
            if HexValue(a) < 16 && HexValue(b) < 16 then Some(HexValue(a) * 16 + HexValue(b)) else None
  {
    HexValueRead(a);
    HexValueRead(b);
    assert [a, b][..1] == [a] && [a][..0] == [];
    assert ReadHex([a][..0]) == Some(0);
    assert ReadHex([a]) == if HexValue(a) < 16 then Some(HexValue(a)) else None;
  }

  lemma ReadFour(a: Symbol, b: Symbol, c: Symbol, d: Symbol)
    ensures ReadHex([a, b, c, d]) ==
            if FineUnit(Unit(a, b, c, d)) then Some(UnitValue(Unit(a, b, c, d))) else None
  {
    hide HexValue;
    HexValueRead(c);
    HexValueRead(d);
    ReadTwo(a, b);
    assert [a, b, c, d][..3] == [a, b, c] && [a, b, c][..2] == [a, b];
    assert ReadHex([a, b, c]) == match (ReadHex([a, b]), ReadHexDigit(c))
                                 case (Some(n), Some(v)) => Some(16 * n + v)
                                 case (_, _) => None;
  }

  lemma UnitIsRead(a: Symbol, b: Symbol, c: Symbol, d: Symbol, rest: Text)
    ensures ReadUnicodeEscape([BACKSLASH, LOWER_U, a, b, c, d] + rest) ==
            if FineUnit(Unit(a, b, c, d)) then Some(UnitValue(Unit(a, b, c, d))) else None
  {
    hide HexValue, ReadHex;
    ReadFour(a, b, c, d);
    var s := [BACKSLASH, LOWER_U, a, b, c, d] + rest;
    assert s[2..6] == [a, b, c, d];
  }

  /** What follows a string's pieces starts with a readable escape exactly when the next piece is one. */
  lemma NextUnit(ps: seq<Piece>, rest: Text)
    requires FinePieces(ps)
    ensures ReadUnicodeEscape(WritePieces(ps) + ([QUOTE] + rest)) ==
            if ps != [] && ps[0].Unit? then Some(UnitValue(ps[0])) else None
  {
    hide HexValue, ReadUnicodeEscape, FinePiece, UnitValue, FineUnit, WritePiece;
    var s := WritePieces(ps) + ([QUOTE] + rest);
    if ps == [] {
      assert s == [QUOTE] + rest;
      NoEscape(s);
    } else {
      var tail := WritePieces(ps[1..]) + ([QUOTE] + rest);
      assert s == WritePiece(ps[0]) + tail;
      HeadEscape(ps[0], tail);
    }
  }

  lemma NoEscape(s: Text)
    requires s != [] && (s[0] != BACKSLASH || (|s| > 1 && s[1] != LOWER_U))
    ensures ReadUnicodeEscape(s) == None
  {
  }

  lemma HeadEscape(p: Piece, tail: Text)
    requires FinePiece(p)
    ensures ReadUnicodeEscape(WritePiece(p) + tail) == if p.Unit? then Some(UnitValue(p)) else None
  {
    hide HexValue, ReadUnicodeEscape, UnitValue, FineUnit;
    match p
    case Raw(x) => NoEscape([x] + tail);
    case Short(letter) =>
      ShortIsNoUnit();
      NoEscape([BACKSLASH, letter] + tail);
    case Unit(a, b, c, d) => UnitIsRead(a, b, c, d, tail);
  }

  lemma ShortIsNoUnit()
    ensures ShortValue(LOWER_U) == None
  {
  }

  lemma ShortIsRead(c: CodePoint)
    ensures ShortValue(Ch(c)) == match ReadShortEscape(c) case Some(v) => Some(Ch(v)) case None => None
  {
    var t := Lit("\"\\/");
    assert t[0] == Ch(0x22) && t[1] == Ch(0x5C) && t[2] == Ch(0x2F);
  }

  lemma ScanShort(letter: Symbol, tail: Text)
    requires ShortValue(letter).Some?
    ensures ScanOne([BACKSLASH, letter] + tail) == One(ShortValue(letter).value, 2)
  {
    hide ReadUnicodeEscape, ShortValue;
    ShortHasCode(letter);
    ShortIsRead(letter.code);
    ShortIsNoUnit();
    var s := [BACKSLASH, letter] + tail;
    assert s[0] == BACKSLASH && s[1] == letter;
  }

  lemma ScanUnit(p: Piece, tail: Text)
    requires p.Unit? && FineUnit(p)
    ensures var next := ReadUnicodeEscape(tail);
            ScanOne(WritePiece(p) + tail) ==
            if IsHighSurrogate(UnitValue(p)) && next.Some? && IsLowSurrogate(next.value)
            then One(Ch(Pair(UnitValue(p), next.value)), 12)
            else One(Ch(UnitValue(p)), 6)
  {
    hide ReadUnicodeEscape, UnitValue, FineUnit, Pair;
    UnitIsRead(p.a, p.b, p.c, p.d, tail);
    var s := WritePiece(p) + tail;
    assert s[6..] == tail;
  }

  /** The reader takes one piece at a time, or two that pair up. */
  lemma ScanPiece(ps: seq<Piece>, rest: Text)
    requires FinePieces(ps) && ps != []
    ensures var s := WritePieces(ps) + ([QUOTE] + rest);
            s != [] && s[0] != QUOTE
            && ScanOne(s) == if |ps| > 1 && PairsUp(ps[0], ps[1])
                             then One(Ch(Pair(UnitValue(ps[0]), UnitValue(ps[1]))), 12)
                             else One(PieceValue(ps[0]), |WritePiece(ps[0])|)
  {
    hide ReadUnicodeEscape, UnitValue, HexValue, Pair, ScanOne, FineUnit, ShortValue, WritePieces;
    var p := ps[0];
    var tail := WritePieces(ps[1..]) + ([QUOTE] + rest);
    var s := WritePieces(ps) + ([QUOTE] + rest);
    HeadPiece(ps);
    assert s == WritePiece(p) + tail;
    match p
    case Raw(x) => PlainCharactersRead(x, tail);
    case Short(letter) => ScanShort(letter, tail);
    case Unit(_, _, _, _) =>
      NextUnit(ps[1..], rest);
      ScanUnit(p, tail);
  }

  lemma HeadPiece(ps: seq<Piece>)
    requires ps != []
    ensures WritePieces(ps) == WritePiece(ps[0]) + WritePieces(ps[1..])
  {
  }

  lemma ShortHasCode(letter: Symbol)
    requires ShortValue(letter).Some?
    ensures letter.Ch?
  {
  }

  /** A written string body is read as its value, up to its closing quote. */
  lemma {:induction false} ScanPieces(ps: seq<Piece>, rest: Text)
    requires FinePieces(ps)
    ensures ScanString(WritePieces(ps) + ([QUOTE] + rest)) == Scanned(PiecesValue(ps), rest)
  {
    hide ScanOne, WritePiece, FinePiece, PieceValue, UnitValue, Pair;
    var s := WritePieces(ps) + ([QUOTE] + rest);
    if ps == [] {
      assert s == [QUOTE] + rest && s[1..] == rest;
    } else {
      ScanPiece(ps, rest);
      if |ps| > 1 && PairsUp(ps[0], ps[1]) {
        ScanPieces(ps[2..], rest);
        TwoPieces(ps, rest);
      } else {
        ScanPieces(ps[1..], rest);
        var n := |WritePiece(ps[0])|;
        assert s[n..] == WritePieces(ps[1..]) + ([QUOTE] + rest);
      }
    }
  }

  lemma TwoPieces(ps: seq<Piece>, rest: Text)
    requires |ps| > 1 && ps[0].Unit? && ps[1].Unit?
    ensures var s := WritePieces(ps) + ([QUOTE] + rest);
            |s| >= 12 && s[12..] == WritePieces(ps[2..]) + ([QUOTE] + rest)
  {
    hide WritePieces;
    HeadPiece(ps);
    HeadPiece(ps[1..]);
    assert ps[1..][1..] == ps[2..];
    var tail := WritePieces(ps[2..]) + ([QUOTE] + rest);
    assert WritePieces(ps) + ([QUOTE] + rest) == WritePiece(ps[0]) + WritePiece(ps[1]) + tail;
  }

  lemma WriteUnit(s: Text) returns (p: Piece)
    requires ReadUnicodeEscape(s).Some?
    ensures p.Unit? && FineUnit(p) && s[..6] == WritePiece(p)
  {
    hide HexValue, ReadHex;
    p := Unit(s[2], s[3], s[4], s[5]);
    assert s[2..6] == [s[2], s[3], s[4], s[5]];
    ReadFour(s[2], s[3], s[4], s[5]);
  }

  lemma WriteOne(p: Piece)
    ensures WritePieces([p]) == WritePiece(p)
  {
    hide WritePiece;
    assert [p][1..] == [];
  }

  lemma WriteTwo(p: Piece, q: Piece)
    ensures WritePieces([p, q]) == WritePiece(p) + WritePiece(q)
  {
    hide WritePiece, WritePieces;
    HeadPiece([p, q]);
    assert [p, q][1..] == [q];
    WriteOne(q);
  }

  lemma ShortTaken(s: Text) returns (p: Piece)
    requires s != [] && s[0] == BACKSLASH && (|s| < 2 || s[1] != LOWER_U) && ScanOne(s).One?
    ensures FinePiece(p) && WritePiece(p) == s[..ScanOne(s).length]
  {
    hide ReadUnicodeEscape, ShortValue, ReadShortEscape;
    ShortIsRead(s[1].code);
    p := Short(s[1]);
    assert s[..2] == [s[0], s[1]];
  }

  /** After a readable escape: two that pair up, or one. */
  lemma UnitScan(s: Text)
    requires |s| > 1 && s[0] == BACKSLASH && s[1] == LOWER_U && ScanOne(s).One?
    ensures ReadUnicodeEscape(s).Some?
    ensures ScanOne(s).length == 6 || (ScanOne(s).length == 12 && ReadUnicodeEscape(s[6..]).Some?)
  {
    hide ReadUnicodeEscape, Pair;
  }

  /** Whatever the reader takes as one character was written by one piece, or two that pair up. */
  lemma PieceTaken(s: Text) returns (ps: seq<Piece>)
    requires s != [] && s[0] != QUOTE && ScanOne(s).One?
    ensures FinePieces(ps) && WritePieces(ps) == s[..ScanOne(s).length]
  {
    hide ReadUnicodeEscape, FineUnit, ShortValue, ScanOne, WritePiece, WritePieces;
    if s[0] != BACKSLASH {
      var p := RawTaken(s);
      ps := [p];
      WriteOne(p);
    } else if |s| < 2 || s[1] != LOWER_U {
      var p := ShortTaken(s);
      ps := [p];
      WriteOne(p);
    } else {
      UnitScan(s);
      var p := WriteUnit(s);
      ps := [p];
      WriteOne(p);
      if ScanOne(s).length == 12 {
        var q := WriteUnit(s[6..]);
        ps := [p, q];
        WriteTwo(p, q);
        assert s[..12] == s[..6] + s[6..][..6];
      }
    }
  }

  lemma RawTaken(s: Text) returns (p: Piece)
    requires s != [] && s[0] != QUOTE && s[0] != BACKSLASH && ScanOne(s).One?
    ensures FinePiece(p) && WritePiece(p) == s[..ScanOne(s).length]
  {
    hide ReadUnicodeEscape;
    p := Raw(s[0]);
  }

  lemma {:induction false} WriteAppend(a: seq<Piece>, b: seq<Piece>)
    ensures WritePieces(a + b) == WritePieces(a) + WritePieces(b)
  {
    hide WritePiece;
    if a == [] {
      assert a + b == b;
    } else {
      assert (a + b)[1..] == a[1..] + b;
      WriteAppend(a[1..], b);
    }
  }

  /** Whatever is read as a string body was written by pieces that mean it. */
  lemma {:induction false} StringTaken(s: Text) returns (ps: seq<Piece>)
    requires ScanString(s).Scanned?
    ensures FinePieces(ps) && s == WritePieces(ps) + ([QUOTE] + ScanString(s).rest)
    ensures PiecesValue(ps) == ScanString(s).value
  {
    hide ScanOne, WritePiece, FinePiece, PiecesValue;
    if s[0] == QUOTE {
      ps := [];
      assert s == [QUOTE] + s[1..];
    } else {
      var n := ScanOne(s).length;
      var front := PieceTaken(s);
      var back := StringTaken(s[n..]);
      ps := front + back;
      WriteAppend(front, back);
      assert s == s[..n] + s[n..];
    }
    ScanPieces(ps, ScanString(s).rest);
  }

  // ---------------------------------------------------------------- numbers

  datatype Numeral = Numeral(minus: bool, whole: Text, fraction: Text, exponent: Text)

  predicate Digits(t: Text) { forall i | 0 <= i < |t| :: t[i].Ch? && '0' as int <= t[i].code <= '9' as int }

  /** "0", or digits that do not start with it. */
  predicate FineWhole(t: Text) { t != [] && Digits(t) && (t[0] == Ch('0' as int) ==> |t| == 1) }

  /** Nothing, or a full stop and digits. */
  predicate FineFraction(t: Text) { t != [] ==> |t| >= 2 && t[0] == Ch('.' as int) && Digits(t[1..]) }

  /** Nothing, or "e" or "E", perhaps a sign, and digits. */
  predicate FineExponent(t: Text) {
    t != [] ==>
      && (t[0] == Ch('e' as int) || t[0] == Ch('E' as int))
      && if |t| >= 2 && (t[1] == Ch('+' as int) || t[1] == Ch('-' as int)) then |t| >= 3 && Digits(t[2..])
         else |t| >= 2 && Digits(t[1..])
  }

  predicate FineNumeral(n: Numeral) { FineWhole(n.whole) && FineFraction(n.fraction) && FineExponent(n.exponent) }

  function WriteNumeral(n: Numeral): Text {
    (if n.minus then [Ch('-' as int)] else []) + (n.whole + (n.fraction + n.exponent))
  }

  /** What can follow a number: not one of the characters that could continue it. */
  predicate Stops(rest: Text) {
    rest != [] && rest[0].Ch? ==>
      !('0' as int <= rest[0].code <= '9' as int) && rest[0] != Ch('.' as int) && rest[0] != Ch('e' as int)
      && rest[0] != Ch('E' as int)
  }

  lemma {:induction false} SkipDigits(d: Text, rest: Text, part: NumberPart)
    requires Digits(d) && part != LeadingZero
    ensures SkipNumber(d + rest, part) == SkipNumber(rest, part)
  {
    if d == [] {
      assert d + rest == rest;
    } else {
      assert (d + rest)[1..] == d[1..] + rest && (d + rest)[0] == d[0];
      SkipDigits(d[1..], rest, part);
    }
  }

  lemma SkipStops(rest: Text, part: NumberPart)
    requires Stops(rest)
    ensures SkipNumber(rest, part) == rest
  {
  }

  lemma SkipExponent(x: Text, rest: Text, part: NumberPart)
    requires FineExponent(x) && Stops(rest) && part != Exponent
    ensures SkipNumber(x + rest, part) == rest
  {
    hide SkipNumber;
    if x == [] {
      assert x + rest == rest;
      SkipStops(rest, part);
    } else {
      var sign := if |x| >= 2 && (x[1] == Ch('+' as int) || x[1] == Ch('-' as int)) then 2 else 1;
      var s := x + rest;
      assert s[sign..] == x[sign..] + rest;
      SkipDigits(x[sign..], rest, Exponent);
      SkipStops(rest, Exponent);
      ExponentStep(s, part, sign);
    }
  }

  lemma ExponentStep(s: Text, part: NumberPart, sign: nat)
    requires |s| > sign && (s[0] == Ch(0x65) || s[0] == Ch(0x45)) && part != Exponent
    requires sign == if |s| >= 2 && (s[1] == Ch(0x2B) || s[1] == Ch(0x2D)) then 2 else 1
    requires DecimalDigit(s[sign])
    ensures SkipNumber(s, part) == SkipNumber(s[sign..], Exponent)
  {
  }

  lemma FractionShape(f: Text)
    requires FineFraction(f) && f != []
    ensures |f| >= 2 && f[0] == Ch(0x2E) && Digits(f[1..]) && DecimalDigit(f[1])
  {
    assert f[1..][0] == f[1];
  }

  lemma SkipFraction(f: Text, after: Text, rest: Text, part: NumberPart)
    requires FineFraction(f) && (part == LeadingZero || part == Integer)
    requires SkipNumber(after, part) == rest && SkipNumber(after, Fraction) == rest
    ensures SkipNumber(f + after, part) == rest
  {
    hide SkipNumber, FineFraction, Digits, DecimalDigit;
    if f == [] {
      assert f + after == after;
    } else {
      FractionShape(f);
      var s := f + after;
      assert s[0] == f[0] && s[1] == f[1] && s[1..] == f[1..] + after;
      SkipDigits(f[1..], after, Fraction);
      FractionStep(s, part);
    }
  }

  lemma FractionStep(s: Text, part: NumberPart)
    requires |s| >= 2 && s[0] == Ch(0x2E) && DecimalDigit(s[1]) && (part == LeadingZero || part == Integer)
    ensures SkipNumber(s, part) == SkipNumber(s[1..], Fraction)
  {
  }

  lemma SkipTail(f: Text, x: Text, rest: Text, part: NumberPart)
    requires FineFraction(f) && FineExponent(x) && Stops(rest) && (part == LeadingZero || part == Integer)
    ensures SkipNumber(f + (x + rest), part) == rest
  {
    hide *;
    SkipExponent(x, rest, part);
    SkipExponent(x, rest, Fraction);
    SkipFraction(f, x + rest, rest, part);
  }

  lemma NumberStarts(s: Text, w: Text, tail: Text)
    requires FineWhole(w) && s == w + tail
    ensures s != [] && DecimalDigit(s[0]) && s[0] == w[0] && s[1..] == w[1..] + tail && Digits(w[1..])
    ensures w[0] == Ch(0x30) ==> s[1..] == tail
  {
  }

  /** A written number is read whole when nothing that could continue it follows. */
  lemma NumberIsRead(n: Numeral, rest: Text)
    requires FineNumeral(n) && Stops(rest)
    ensures ParseNumber(n.whole + (n.fraction + (n.exponent + rest))) == Some(rest)
  {
    hide SkipNumber, FineFraction, FineExponent, FineWhole, Digits, DecimalDigit, Stops;
    var tail := n.fraction + (n.exponent + rest);
    NumberStarts(n.whole + tail, n.whole, tail);
    SkipTail(n.fraction, n.exponent, rest, LeadingZero);
    SkipTail(n.fraction, n.exponent, rest, Integer);
    SkipDigits(n.whole[1..], tail, Integer);
  }

  predicate SkipsDigit(s: Text, part: NumberPart) { s != [] && DecimalDigit(s[0]) && part != LeadingZero }

  predicate SkipsFraction(s: Text, part: NumberPart) {
    |s| >= 2 && s[0] == Ch(0x2E) && DecimalDigit(s[1]) && (part == LeadingZero || part == Integer)
  }

  function SignLength(s: Text): nat { if |s| >= 2 && (s[1] == Ch(0x2B) || s[1] == Ch(0x2D)) then 2 else 1 }

  predicate SkipsExponent(s: Text, part: NumberPart) {
    |s| > SignLength(s) && (s[0] == Ch(0x65) || s[0] == Ch(0x45)) && DecimalDigit(s[SignLength(s)]) && part != Exponent
  }

  /** What the reader skips next. */
  lemma SkipCases(s: Text, part: NumberPart)
    ensures SkipNumber(s, part) ==
            if SkipsDigit(s, part) then SkipNumber(s[1..], part)
            else if SkipsFraction(s, part) then SkipNumber(s[1..], Fraction)
            else if SkipsExponent(s, part) then SkipNumber(s[SignLength(s)..], Exponent)
            else s
  {
  }

  datatype Skipped = Skipped(digits: Text, fraction: Text, exponent: Text)

  /** The parts write what stands before the rest. */
  predicate Wrote(p: Skipped, s: Text, rest: Text) {
    s == p.digits + (p.fraction + (p.exponent + rest))
  }

  predicate FineSkipped(p: Skipped, part: NumberPart) {
    && Digits(p.digits) && FineFraction(p.fraction) && FineExponent(p.exponent)
    && (part == LeadingZero ==> p.digits == [])
    && (part == Fraction || part == Exponent ==> p.fraction == [])
    && (part == Exponent ==> p.exponent == [])
  }

  lemma DigitAdded(s: Text, p: Skipped, rest: Text, part: NumberPart) returns (q: Skipped)
    requires s != [] && DecimalDigit(s[0]) && part != LeadingZero && Wrote(p, s[1..], rest) && FineSkipped(p, part)
    ensures Wrote(q, s, rest) && FineSkipped(q, part)
  {
    hide FineFraction, FineExponent;
    q := p.(digits := [s[0]] + p.digits);
    assert s == [s[0]] + s[1..];
  }

  lemma FractionAdded(s: Text, p: Skipped, rest: Text, part: NumberPart) returns (q: Skipped)
    requires SkipsFraction(s, part) && Wrote(p, s[1..], rest) && FineSkipped(p, Fraction) && p.digits != []
    ensures Wrote(q, s, rest) && FineSkipped(q, part)
  {
    hide FineExponent, FineFraction, Digits, DecimalDigit;
    q := Skipped([], [s[0]] + p.digits, p.exponent);
    FractionBuilt(s[0], p.digits);
    FractionWrites(s, p.digits, p.exponent + rest);
    NoDigits();
  }

  lemma NoDigits()
    ensures Digits([])
  {
  }

  lemma FractionBuilt(dot: Symbol, digits: Text)
    requires dot == Ch(0x2E) && digits != [] && Digits(digits)
    ensures FineFraction([dot] + digits)
  {
    assert ([dot] + digits)[1..] == digits;
  }

  lemma FractionWrites(s: Text, digits: Text, rest: Text)
    requires s != [] && s[1..] == digits + ([] + rest)
    ensures s == [] + (([s[0]] + digits) + rest)
  {
    assert s == [s[0]] + s[1..] && [] + rest == rest;
  }

  lemma ExponentWrites(s: Text, sign: nat, digits: Text, rest: Text)
    requires sign <= |s| && s[sign..] == digits + ([] + ([] + rest))
    ensures s == [] + ([] + ((s[..sign] + digits) + rest))
  {
    assert s == s[..sign] + s[sign..] && [] + rest == rest;
  }

  lemma ExponentAdded(s: Text, p: Skipped, rest: Text, part: NumberPart) returns (q: Skipped)
    requires SkipsExponent(s, part) && Wrote(p, s[SignLength(s)..], rest) && FineSkipped(p, Exponent) && p.digits != []
    ensures Wrote(q, s, rest) && FineSkipped(q, part)
  {
    hide FineFraction, FineExponent, Digits, DecimalDigit;
    var sign := SignLength(s);
    q := Skipped([], [], s[..sign] + p.digits);
    ExponentShape(s, p.digits);
    ExponentWrites(s, sign, p.digits, rest);
    NoFraction();
    NoDigits();
  }

  lemma NoFraction()
    ensures FineFraction([])
  {
  }

  lemma ExponentShape(s: Text, digits: Text)
    requires |s| > SignLength(s) && (s[0] == Ch(0x65) || s[0] == Ch(0x45)) && digits != [] && Digits(digits)
    ensures FineExponent(s[..SignLength(s)] + digits)
  {
    var sign := SignLength(s);
    var x := s[..sign] + digits;
    assert x[0] == s[0] && x[sign..] == digits && x[sign] == digits[0];
    if sign == 2 { assert x[1] == s[1]; }
  }

  /** A leading digit belongs to the digits. */
  lemma DigitIsTaken(s: Text, p: Skipped, part: NumberPart)
    requires SkipsDigit(s, part) && (part == Fraction || part == Exponent)
    requires Wrote(p, s, SkipNumber(s, part)) && FineSkipped(p, part)
    ensures p.digits != []
  {
    hide SkipNumber;
    SkipCases(s, part);
  }

  /** What the reader skips was written as digits, a fraction and an exponent. */
  lemma {:induction false} SkippedParts(s: Text, part: NumberPart) returns (p: Skipped)
    ensures Wrote(p, s, SkipNumber(s, part)) && FineSkipped(p, part)
    decreases |s|
  {
    hide SkipNumber, FineSkipped, Wrote, DecimalDigit;
    SkipCases(s, part);
    if SkipsDigit(s, part) {
      p := SkippedParts(s[1..], part);
      p := DigitAdded(s, p, SkipNumber(s[1..], part), part);
    } else if SkipsFraction(s, part) {
      p := SkippedParts(s[1..], Fraction);
      DigitIsTaken(s[1..], p, Fraction);
      p := FractionAdded(s, p, SkipNumber(s[1..], Fraction), part);
    } else if SkipsExponent(s, part) {
      p := SkippedParts(s[SignLength(s)..], Exponent);
      DigitIsTaken(s[SignLength(s)..], p, Exponent);
      p := ExponentAdded(s, p, SkipNumber(s[SignLength(s)..], Exponent), part);
    } else {
      p := Skipped([], [], []);
      NothingSkipped(s, part);
    }
  }

  lemma NothingSkipped(s: Text, part: NumberPart)
    ensures Wrote(Skipped([], [], []), s, s) && FineSkipped(Skipped([], [], []), part)
  {
    assert [] + s == s;
  }

  /** Whatever is read as a number was written as one. */
  lemma NumberTaken(s: Text, minus: bool) returns (n: Numeral)
    requires ParseNumber(s).Some?
    ensures n.minus == minus && FineNumeral(n)
    ensures s == n.whole + (n.fraction + (n.exponent + ParseNumber(s).value))
  {
    hide SkipNumber, FineFraction, FineExponent;
    var part := if s[0] == Ch(0x30) then LeadingZero else Integer;
    var p := SkippedParts(s[1..], part);
    n := Numeral(minus, [s[0]] + p.digits, p.fraction, p.exponent);
    assert s == [s[0]] + s[1..];
  }

  // ---------------------------------------------------------------- syntax trees

  /** A JSON value with every choice of its text: spellings, numerals and gaps. */
  datatype Syntax =
    | Word(word: string)
    | Number(numeral: Numeral)
    | Quoted(pieces: seq<Piece>)
    | EmptyList(gap: Text)
    | ListOf(gap: Text, items: Items)
    | EmptyObject(gap: Text)
    | ObjectOf(gap: Text, entries: Entries)

  datatype Items =
    | LastItem(node: Syntax, after: Text)
    | NextItem(node: Syntax, after: Text, gap: Text, rest: Items)

  /** A key, the gaps around its colon, its value and the gap after it. */
  datatype Entry = Entry(key: seq<Piece>, before: Text, gap: Text, node: Syntax, after: Text)

  datatype Entries = LastEntry(entry: Entry) | NextEntry(entry: Entry, gap: Text, rest: Entries)

  predicate Gap(t: Text) { forall i | 0 <= i < |t| :: t[i] in Lit(" \t\n\r") }

  function WordValue(word: string): Json {
    if word == "null" then JNull
    else if word == "true" then JBool(true)
    else if word == "false" then JBool(false)
    else JNumber(Lit(word))
  }

  predicate FineWord(word: string) { word in ["null", "true", "false", "NaN", "Infinity", "-Infinity"] }

  function Write(n: Syntax): Text {
    match n
    case Word(word) => Lit(word)
    case Number(numeral) => WriteNumeral(numeral)
    case Quoted(pieces) => [QUOTE] + (WritePieces(pieces) + [QUOTE])
    case EmptyList(gap) => [OPEN_BRACKET] + (gap + [CLOSE_BRACKET])
    case ListOf(gap, items) => [OPEN_BRACKET] + (gap + WriteItems(items))
    case EmptyObject(gap) => [OPEN_BRACE] + (gap + [CLOSE_BRACE])
    case ObjectOf(gap, entries) => [OPEN_BRACE] + (gap + WriteEntries(entries))
  }

  function WriteItems(items: Items): Text {
    match items
    case LastItem(node, after) => Write(node) + (after + [CLOSE_BRACKET])
    case NextItem(node, after, gap, rest) => Write(node) + (after + ([COMMA] + (gap + WriteItems(rest))))
  }

  /** A key and the written value, with their gaps, before what follows. */
  function WriteEntry(e: Entry, value: Text, tail: Text): Text {
    [QUOTE] + (WritePieces(e.key) + ([QUOTE] + (e.before + ([COLON] + (e.gap + (value + (e.after + tail)))))))
  }

  function WriteEntries(entries: Entries): Text {
    match entries
    case LastEntry(e) => WriteEntry(e, Write(e.node), [CLOSE_BRACE])
    case NextEntry(e, gap, rest) => WriteEntry(e, Write(e.node), [COMMA] + (gap + WriteEntries(rest)))
  }

  predicate Fine(n: Syntax) {
    match n
    case Word(word) => FineWord(word)
    case Number(numeral) => FineNumeral(numeral)
    case Quoted(pieces) => FinePieces(pieces)
    case EmptyList(gap) => Gap(gap)
    case ListOf(gap, items) => Gap(gap) && FineItems(items)
    case EmptyObject(gap) => Gap(gap)
    case ObjectOf(gap, entries) => Gap(gap) && FineEntries(entries)
  }

  predicate FineItems(items: Items) {
    match items
    case LastItem(node, after) => Fine(node) && Gap(after)
    case NextItem(node, after, gap, rest) => Fine(node) && Gap(after) && Gap(gap) && FineItems(rest)
  }

  predicate FineEntry(e: Entry) { FinePieces(e.key) && Gap(e.before) && Gap(e.gap) && Gap(e.after) }

  predicate FineEntries(entries: Entries) {
    match entries
    case LastEntry(e) => FineEntry(e) && Fine(e.node)
    case NextEntry(e, gap, rest) => FineEntry(e) && Fine(e.node) && Gap(gap) && FineEntries(rest)
  }

  /** What the tree means; of equal keys the last one counts. */
  function Meaning(n: Syntax): Json
    requires Fine(n)
  {
    match n
    case Word(word) => WordValue(word)
    case Number(numeral) => JNumber(WriteNumeral(numeral))
    case Quoted(pieces) => JString(PiecesValue(pieces))
    case EmptyList(_) => JArray([])
    case ListOf(_, items) => JArray(Values(items))
    case EmptyObject(_) => JObject(map[])
    case ObjectOf(_, entries) => JObject(Fields(entries, map[]))
  }

  function Values(items: Items): seq<Json>
    requires FineItems(items)
  {
    match items
    case LastItem(node, _) => [Meaning(node)]
    case NextItem(node, _, _, rest) => [Meaning(node)] + Values(rest)
  }

  function Fields(entries: Entries, found: map<Text, Json>): map<Text, Json>
    requires FineEntries(entries)
  {
    match entries
    case LastEntry(e) => found[PiecesValue(e.key) := Meaning(e.node)]
    case NextEntry(e, _, rest) => Fields(rest, found[PiecesValue(e.key) := Meaning(e.node)])
  }

  // ---------------------------------------------------------------- gaps

  lemma GapSymbol(x: Symbol)
    ensures JsonSpace(x) <==> x in Lit(" \t\n\r")
  {
    var t := Lit(" \t\n\r");
    assert t[0] == Ch(0x20) && t[1] == Ch(9) && t[2] == Ch(10) && t[3] == Ch(13);
  }

  lemma {:induction false} GapSkipped(gap: Text, rest: Text)
    requires Gap(gap) && (rest != [] ==> !JsonSpace(rest[0]))
    ensures SkipSpace(gap + rest) == rest
  {
    hide JsonSpace, Lit;
    if gap == [] {
      assert gap + rest == rest;
    } else {
      assert (gap + rest)[1..] == gap[1..] + rest;
      GapSymbol(gap[0]);
      GapSkipped(gap[1..], rest);
    }
  }

  lemma GapGrows(s: Text, gap: Text, rest: Text)
    requires s != [] && JsonSpace(s[0]) && Gap(gap) && s[1..] == gap + rest
    ensures Gap([s[0]] + gap) && s == ([s[0]] + gap) + rest
  {
    hide JsonSpace, Lit;
    GapSymbol(s[0]);
    assert s == [s[0]] + s[1..];
  }

  lemma {:induction false} GapTaken(s: Text) returns (gap: Text)
    ensures Gap(gap) && s == gap + SkipSpace(s)
    ensures SkipSpace(s) != [] ==> !JsonSpace(SkipSpace(s)[0])
  {
    hide JsonSpace, Gap;
    if s != [] && JsonSpace(s[0]) {
      var inner := GapTaken(s[1..]);
      GapGrows(s, inner, SkipSpace(s[1..]));
      gap := [s[0]] + inner;
    } else {
      gap := [];
      NoGap();
      assert [] + s == s;
    }
  }

  lemma NoGap()
    ensures Gap([])
  {
  }

  // ---------------------------------------------------------------- what a tree writes is read as it means

  /** Written values start with a character that is no space and closes nothing. */
  lemma ValueStarts(n: Syntax, rest: Text)
    requires Fine(n)
    ensures var s := Write(n) + rest; s != [] && !JsonSpace(s[0]) && s[0] != CLOSE_BRACKET && s[0] != CLOSE_BRACE
  {
    hide WriteItems, WriteEntries, WritePieces;
    if n.Word? { WordStarts(n.word); }
    if n.Number? { NumeralStarts(n.numeral); }
    assert (Write(n) + rest)[0] == Write(n)[0];
  }

  lemma WordStarts(word: string)
    requires FineWord(word)
    ensures |word| > 0 && word[0] in "ntfNI-"
  {
  }

  lemma NumeralStarts(n: Numeral)
    requires FineNumeral(n)
    ensures WriteNumeral(n) != []
    ensures var x := WriteNumeral(n)[0]; x.Ch? && (x.code == '-' as int || '0' as int <= x.code <= '9' as int)
    ensures n.minus ==> |WriteNumeral(n)| > 1 && DecimalDigit(WriteNumeral(n)[1])
  {
    hide FineFraction, FineExponent;
  }

  /** A number cut off by its context. */
  predicate Ends(n: Syntax, rest: Text) { n.Number? ==> Stops(rest) }

  lemma WordIsRead(word: string, rest: Text)
    requires FineWord(word)
    ensures ParseValue(Lit(word) + rest) == Parsed(WordValue(word), rest)
  {
    hide ScanString, ParseMembers, ParseItems, ParseNumber, SkipSpace, FindKeyword, FineWord;
    var s := Lit(word) + rest;
    assert s[..|word|] == Lit(word) && s[|word|..] == rest;
    WordStarts(word);
    WordFound(word, s);
    assert s[0] == Ch(word[0] as int);
    assert word[0] != '"' && word[0] != '{' && word[0] != '[';
  }

  function Initials(): string { "ntfNI-" }

  lemma KeywordStarts(k: nat)
    requires k < 6
    ensures |KEYWORDS| == 6 && |KEYWORDS[k]| > 0 && KEYWORDS[k][0] == Initials()[k]
  {
  }

  lemma WordIsKeyword(word: string) returns (k: nat)
    requires FineWord(word)
    ensures k < 6 == |KEYWORDS| && KEYWORDS[k] == word
  {
    k := if word == "null" then 0 else if word == "true" then 1 else if word == "false" then 2
         else if word == "NaN" then 3 else if word == "Infinity" then 4 else 5;
  }

  lemma InitialsDiffer(j: nat, k: nat)
    requires j < k < 6
    ensures Initials()[j] != Initials()[k]
  {
  }

  lemma PrefixStarts(s: Text, word: string)
    requires |word| > 0
    ensures |word| <= |s| && s[..|word|] == Lit(word) ==> s[0] == Ch(word[0] as int)
  {
    if |word| <= |s| { assert s[..|word|][0] == s[0]; }
  }

  /** A keyword that starts differently is passed over. */
  lemma {:induction false} KeywordFound(s: Text, j: nat, k: nat)
    requires j <= k < 6 == |KEYWORDS| && |KEYWORDS[k]| <= |s| && s[..|KEYWORDS[k]|] == Lit(KEYWORDS[k])
    ensures FindKeyword(s, j) == Some(KEYWORDS[k])
    decreases k - j
  {
    hide KEYWORDS, Initials;
    KeywordStarts(k);
    PrefixStarts(s, KEYWORDS[k]);
    if j < k {
      KeywordStarts(j);
      InitialsDiffer(j, k);
      PrefixStarts(s, KEYWORDS[j]);
      KeywordFound(s, j + 1, k);
    }
  }

  lemma WordFound(word: string, s: Text)
    requires FineWord(word) && |word| <= |s| && s[..|word|] == Lit(word)
    ensures FindKeyword(s, 0) == Some(word)
  {
    hide *;
    var k := WordIsKeyword(word);
    KeywordFound(s, 0, k);
  }

  /** A digit, perhaps after a minus. */
  predicate StartsNumber(s: Text) {
    s != [] && (DecimalDigit(s[0]) || (s[0] == Ch('-' as int) && |s| > 1 && DecimalDigit(s[1])))
  }

  lemma InitialIsNoDigit(j: nat)
    requires j < 6
    ensures !DecimalDigit(Ch(Initials()[j] as int)) && (Initials()[j] == '-' <==> j == 5)
  {
  }

  lemma MinusInfinity(s: Text)
    requires StartsNumber(s)
    ensures !(9 <= |s| && s[..9] == Lit("-Infinity"))
  {
    if 9 <= |s| {
      assert s[..9][1] == s[1] && s[..9][0] == s[0];
      assert Lit("-Infinity")[1] == Ch('I' as int) && Lit("-Infinity")[0] == Ch('-' as int);
    }
  }

  lemma {:induction false} NoKeyword(s: Text, j: nat)
    requires StartsNumber(s) && j <= 6
    ensures FindKeyword(s, j) == None
    decreases 6 - j
  {
    hide KEYWORDS, Initials, DecimalDigit;
    KeywordStarts(0);
    if j < 6 {
      KeywordStarts(j);
      InitialIsNoDigit(j);
      PrefixStarts(s, KEYWORDS[j]);
      MinusInfinity(s);
      LastKeyword();
      NoKeyword(s, j + 1);
    }
  }

  lemma LastKeyword()
    ensures KEYWORDS[5] == "-Infinity"
  {
  }

  lemma NumeralParts(n: Numeral, rest: Text)
    requires FineNumeral(n)
    ensures var s := WriteNumeral(n) + rest;
            var minus := if s[0] == Ch(0x2D) then 1 else 0;
            && StartsNumber(s) && minus <= |s| && n.minus == (minus == 1)
            && s[minus..] == n.whole + (n.fraction + (n.exponent + rest))
            && s[..|s| - |rest|] == WriteNumeral(n)
  {
    hide FineFraction, FineExponent;
    var body := n.whole + (n.fraction + (n.exponent + rest));
    assert n.whole + (n.fraction + n.exponent) + rest == body;
    assert body[0] == n.whole[0];
    if n.minus {
      assert WriteNumeral(n) + rest == [Ch('-' as int)] + body;
    } else {
      assert WriteNumeral(n) == n.whole + (n.fraction + n.exponent);
      assert WriteNumeral(n) + rest == body;
    }
  }

  lemma NumeralIsRead(n: Numeral, rest: Text)
    requires FineNumeral(n) && Stops(rest)
    ensures ParseValue(WriteNumeral(n) + rest) == Parsed(JNumber(WriteNumeral(n)), rest)
  {
    hide ScanString, ParseMembers, ParseItems, ParseNumber, SkipSpace, FindKeyword, WriteNumeral, FineNumeral, Stops,
         KEYWORDS;
    var s := WriteNumeral(n) + rest;
    NumeralParts(n, rest);
    NoKeyword(s, 0);
    NumberIsRead(n, rest);
    assert s[0] != QUOTE && s[0] != OPEN_BRACE && s[0] != OPEN_BRACKET;
  }

  lemma QuotedIsRead(ps: seq<Piece>, rest: Text)
    requires FinePieces(ps)
    ensures ParseValue([QUOTE] + (WritePieces(ps) + [QUOTE]) + rest) == Parsed(JString(PiecesValue(ps)), rest)
  {
    hide ScanString, WritePieces, PiecesValue, ParseScalar, ParseMembers, ParseItems;
    var s := [QUOTE] + (WritePieces(ps) + [QUOTE]) + rest;
    assert s[1..] == WritePieces(ps) + ([QUOTE] + rest);
    ScanPieces(ps, rest);
    ParseStringValue(s);
  }

  /** After an opening bracket and a gap: the closing one, or the items. */
  lemma ListStarts(gap: Text, body: Text)
    requires Gap(gap) && body != [] && !JsonSpace(body[0])
    ensures ParseValue([OPEN_BRACKET] + (gap + body)) ==
            if body[0] == CLOSE_BRACKET then Parsed(JArray([]), body[1..]) else ParseItems(body, [])
    ensures ParseValue([OPEN_BRACE] + (gap + body)) ==
            if body[0] == CLOSE_BRACE then Parsed(JObject(map[]), body[1..]) else ParseMembers(body, map[])
  {
    hide ScanString, ParseScalar, ParseMembers, ParseItems, SkipSpace, JsonSpace, Gap;
    GapSkipped(gap, body);
    assert ([OPEN_BRACKET] + (gap + body))[1..] == gap + body;
    assert ([OPEN_BRACE] + (gap + body))[1..] == gap + body;
  }

  lemma GapStops(after: Text, next: Symbol, rest: Text)
    requires Gap(after) && next in [COMMA, CLOSE_BRACE, CLOSE_BRACKET]
    ensures Stops(after + ([next] + rest)) && SkipSpace(after + ([next] + rest)) == [next] + rest
    ensures !JsonSpace(next)
  {
    hide SkipSpace;
    assert !JsonSpace(next);
    GapSkipped(after, [next] + rest);
    if after != [] { GapSymbol(after[0]); }
  }

  lemma GapEnds(after: Text)
    requires Gap(after)
    ensures Stops(after) && SkipSpace(after) == []
  {
    hide SkipSpace;
    GapSkipped(after, []);
    assert after + [] == after;
    if after != [] { GapSymbol(after[0]); }
  }

  /** One item: its value is read, and what follows it decides. */
  lemma ItemStep(s: Text, found: seq<Json>, value: Json, after: Text, next: Symbol, rest: Text)
    requires ParseValue(s) == Parsed(value, after + ([next] + rest))
    requires Gap(after) && (next == COMMA || next == CLOSE_BRACKET)
    ensures ParseItems(s, found) ==
            if next == COMMA then ParseItems(SkipSpace(rest), found + [value])
            else Parsed(JArray(found + [value]), rest)
  {
    hide ParseValue, SkipSpace, Gap, JsonSpace;
    GapStops(after, next, rest);
    assert ([next] + rest)[1..] == rest;
  }

  /** One member: key, colon and value are read, and what follows decides. */
  lemma MemberStep(s: Text, found: map<Text, Json>, e: Entry, value: Json, written: Text, next: Symbol, rest: Text)
    requires FineEntry(e) && (next == COMMA || next == CLOSE_BRACE)
    requires s == WriteEntry(e, written, [next] + rest)
    requires var v := written + (e.after + ([next] + rest));
             v != [] && !JsonSpace(v[0]) && ParseValue(v) == Parsed(value, e.after + ([next] + rest))
    ensures s != [] && s[0] == QUOTE
    ensures ParseMembers(s, found) ==
            if next == COMMA then ParseMembers(SkipSpace(rest), found[PiecesValue(e.key) := value])
            else Parsed(JObject(found[PiecesValue(e.key) := value]), rest)
  {
    hide ParseValue, ParseMembers, SkipSpace, Gap, JsonSpace, ScanString, PiecesValue, FinePieces, FineEntry,
         WriteEntry, Stops;
    EntryGaps(e);
    var v := written + (e.after + ([next] + rest));
    var afterKey := KeyIsRead(s, e, v, written, [next] + rest);
    GapStops(e.after, next, rest);
    assert ([next] + rest)[1..] == rest;
    MembersGoOn(s, found, PiecesValue(e.key), afterKey, value, e.after + ([next] + rest), [next] + rest);
  }

  /** The reader's step over one member. */
  lemma MembersGoOn(
    s: Text, found: map<Text, Json>, key: Text, afterKey: Text, value: Json, afterValue: Text, t: Text)
    requires s != [] && s[0] == QUOTE && ScanString(s[1..]) == Scanned(key, afterKey)
    requires SkipSpace(afterKey) != [] && SkipSpace(afterKey)[0] == COLON
    requires ParseValue(SkipSpace(SkipSpace(afterKey)[1..])) == Parsed(value, afterValue)
    requires t == SkipSpace(afterValue) && t != [] && (t[0] == COMMA || t[0] == CLOSE_BRACE)
    ensures ParseMembers(s, found) ==
            if t[0] == COMMA then ParseMembers(SkipSpace(t[1..]), found[key := value])
            else Parsed(JObject(found[key := value]), t[1..])
  {
    hide ParseValue, SkipSpace, JsonSpace, ScanString;
  }

  lemma EntryGaps(e: Entry)
    requires FineEntry(e)
    ensures Gap(e.before) && Gap(e.gap) && Gap(e.after) && FinePieces(e.key)
  {
  }

  /** The key, its colon and the gap before the value are read. */
  lemma KeyIsRead(s: Text, e: Entry, v: Text, written: Text, tail: Text) returns (afterKey: Text)
    requires FineEntry(e) && s == WriteEntry(e, written, tail)
    requires v == written + (e.after + tail) && v != [] && !JsonSpace(v[0])
    ensures s != [] && s[0] == QUOTE && ScanString(s[1..]) == Scanned(PiecesValue(e.key), afterKey)
    ensures var colon := SkipSpace(afterKey); colon != [] && colon[0] == COLON && SkipSpace(colon[1..]) == v
  {
    hide SkipSpace, Gap, JsonSpace, ScanString, WritePieces, PiecesValue, FinePieces;
    var colon := [COLON] + (e.gap + v);
    afterKey := e.before + colon;
    ScanPieces(e.key, afterKey);
    assert s[1..] == WritePieces(e.key) + ([QUOTE] + afterKey);
    ColonIsNoSpace();
    GapSkipped(e.before, colon);
    GapSkipped(e.gap, v);
    assert colon[1..] == e.gap + v;
  }

  lemma ColonIsNoSpace()
    ensures !JsonSpace(COLON)
  {
  }

  /** What a tree writes is read as what it means, up to whatever follows it. */
  lemma {:induction false} ValueIsRead(n: Syntax, rest: Text)
    requires Fine(n) && Ends(n, rest)
    ensures ParseValue(Write(n) + rest) == Parsed(Meaning(n), rest)
  {
    hide ParseValue, ParseItems, ParseMembers, WordValue, WriteNumeral, PiecesValue, Stops, FineNumeral, FinePieces,
         FineWord, Gap, JsonSpace, WriteItems, WriteEntries, WritePieces;
    match n
    case Word(word) => WordIsRead(word, rest);
    case Number(numeral) => NumeralIsRead(numeral, rest);
    case Quoted(pieces) => QuotedIsRead(pieces, rest);
    case EmptyList(gap) => EmptyIsRead(gap, rest);
    case EmptyObject(gap) => EmptyIsRead(gap, rest);
    case ListOf(gap, items) =>
      ItemsAreRead(items, [], rest);
      assert [] + Values(items) == Values(items);
      ListIsRead(gap, items, rest);
    case ObjectOf(gap, entries) =>
      EntriesAreRead(entries, map[], rest);
      ObjectIsRead(gap, entries, rest);
  }

  lemma EmptyIsRead(gap: Text, rest: Text)
    requires Gap(gap)
    ensures ParseValue([OPEN_BRACKET] + (gap + [CLOSE_BRACKET]) + rest) == Parsed(JArray([]), rest)
    ensures ParseValue([OPEN_BRACE] + (gap + [CLOSE_BRACE]) + rest) == Parsed(JObject(map[]), rest)
  {
    hide ParseValue, Gap, JsonSpace;
    BracketsAreNoSpace();
    ListStarts(gap, [CLOSE_BRACKET] + rest);
    ListStarts(gap, [CLOSE_BRACE] + rest);
    assert ([CLOSE_BRACKET] + rest)[1..] == rest && ([CLOSE_BRACE] + rest)[1..] == rest;
    assert [OPEN_BRACKET] + (gap + [CLOSE_BRACKET]) + rest == [OPEN_BRACKET] + (gap + ([CLOSE_BRACKET] + rest));
    assert [OPEN_BRACE] + (gap + [CLOSE_BRACE]) + rest == [OPEN_BRACE] + (gap + ([CLOSE_BRACE] + rest));
  }

  lemma ListIsRead(gap: Text, items: Items, rest: Text)
    requires Gap(gap) && FineItems(items)
    ensures ParseValue([OPEN_BRACKET] + (gap + WriteItems(items)) + rest) == ParseItems(WriteItems(items) + rest, [])
  {
    hide ParseValue, ParseItems, Gap, JsonSpace, WriteItems, FineItems;
    ItemsStart(items, rest);
    ListStarts(gap, WriteItems(items) + rest);
    assert [OPEN_BRACKET] + (gap + WriteItems(items)) + rest == [OPEN_BRACKET] + (gap + (WriteItems(items) + rest));
  }

  lemma ObjectIsRead(gap: Text, entries: Entries, rest: Text)
    requires Gap(gap)
    ensures ParseValue([OPEN_BRACE] + (gap + WriteEntries(entries)) + rest)
            == ParseMembers(WriteEntries(entries) + rest, map[])
  {
    hide ParseValue, ParseMembers, Gap, JsonSpace, WriteEntries;
    EntriesStart(entries, rest);
    ListStarts(gap, WriteEntries(entries) + rest);
    assert [OPEN_BRACE] + (gap + WriteEntries(entries)) + rest == [OPEN_BRACE] + (gap + (WriteEntries(entries) + rest));
  }

  lemma BracketsAreNoSpace()
    ensures !JsonSpace(CLOSE_BRACE) && !JsonSpace(CLOSE_BRACKET) && !JsonSpace(QUOTE)
  {
  }

  lemma ItemsStart(items: Items, rest: Text)
    requires FineItems(items)
    ensures var s := WriteItems(items) + rest; s != [] && !JsonSpace(s[0]) && s[0] != CLOSE_BRACKET
  {
    hide Write, JsonSpace;
    var tail := match items case LastItem(_, after) => after + [CLOSE_BRACKET]
                            case NextItem(_, after, gap, more) => after + ([COMMA] + (gap + WriteItems(more)));
    ValueStarts(items.node, tail + rest);
    assert WriteItems(items) + rest == Write(items.node) + (tail + rest);
  }

  lemma EntriesStart(entries: Entries, rest: Text)
    ensures var s := WriteEntries(entries) + rest; s != [] && !JsonSpace(s[0]) && s[0] == QUOTE
  {
    BracketsAreNoSpace();
  }

  lemma {:induction false} ItemsAreRead(items: Items, found: seq<Json>, rest: Text)
    requires FineItems(items)
    ensures ParseItems(WriteItems(items) + rest, found) == Parsed(JArray(found + Values(items)), rest)
  {
    hide ParseValue, ParseItems, Write, Meaning, Fine, Gap, JsonSpace, SkipSpace, Stops;
    var s := WriteItems(items) + rest;
    match items
    case LastItem(node, after) =>
      assert s == Write(node) + (after + ([CLOSE_BRACKET] + rest));
      GapStops(after, CLOSE_BRACKET, rest);
      ValueIsRead(node, after + ([CLOSE_BRACKET] + rest));
      ItemStep(s, found, Meaning(node), after, CLOSE_BRACKET, rest);
    case NextItem(node, after, gap, more) =>
      var tail := gap + (WriteItems(more) + rest);
      assert s == Write(node) + (after + ([COMMA] + tail));
      GapStops(after, COMMA, tail);
      ValueIsRead(node, after + ([COMMA] + tail));
      ItemStep(s, found, Meaning(node), after, COMMA, tail);
      ItemsStart(more, rest);
      GapSkipped(gap, WriteItems(more) + rest);
      ItemsAreRead(more, found + [Meaning(node)], rest);
      assert found + [Meaning(node)] + Values(more) == found + ([Meaning(node)] + Values(more));
  }

  lemma EntryTail(e: Entry, value: Text, tail: Text, rest: Text)
    ensures WriteEntry(e, value, tail) + rest == WriteEntry(e, value, tail + rest)
  {
    hide WritePieces;
  }

  lemma {:induction false} EntriesAreRead(entries: Entries, found: map<Text, Json>, rest: Text)
    requires FineEntries(entries)
    ensures ParseMembers(WriteEntries(entries) + rest, found) == Parsed(JObject(Fields(entries, found)), rest)
  {
    hide ParseValue, ParseMembers, Write, WriteEntry, Meaning, Fine, Gap, JsonSpace, SkipSpace, Stops, PiecesValue,
         FinePieces;
    var s := WriteEntries(entries) + rest;
    var e := entries.entry;
    match entries
    case LastEntry(_) =>
      EntryTail(e, Write(e.node), [CLOSE_BRACE], rest);
      GapStops(e.after, CLOSE_BRACE, rest);
      ValueStarts(e.node, e.after + ([CLOSE_BRACE] + rest));
      ValueIsRead(e.node, e.after + ([CLOSE_BRACE] + rest));
      MemberStep(s, found, e, Meaning(e.node), Write(e.node), CLOSE_BRACE, rest);
    case NextEntry(_, gap, more) =>
      var tail := gap + (WriteEntries(more) + rest);
      EntryTail(e, Write(e.node), [COMMA] + (gap + WriteEntries(more)), rest);
      assert [COMMA] + (gap + WriteEntries(more)) + rest == [COMMA] + tail;
      GapStops(e.after, COMMA, tail);
      ValueStarts(e.node, e.after + ([COMMA] + tail));
      ValueIsRead(e.node, e.after + ([COMMA] + tail));
      MemberStep(s, found, e, Meaning(e.node), Write(e.node), COMMA, tail);
      EntriesStart(more, rest);
      GapSkipped(gap, WriteEntries(more) + rest);
      EntriesAreRead(more, found[PiecesValue(e.key) := Meaning(e.node)], rest);
  }

  // ---------------------------------------------------------------- whatever is read was written by a tree

  lemma {:induction false} KeywordTaken(s: Text, j: nat)
    requires j <= |KEYWORDS|
    ensures match FindKeyword(s, j)
            case Some(word) => word in KEYWORDS && |word| <= |s| && s[..|word|] == Lit(word)
            case None => true
    decreases |KEYWORDS| - j
  {
    hide KEYWORDS;
    if j < |KEYWORDS| && FindKeyword(s, j) == FindKeyword(s, j + 1) { KeywordTaken(s, j + 1); }
  }

  lemma WordTaken(s: Text, word: string) returns (n: Syntax)
    requires s != [] && FindKeyword(s, 0) == Some(word)
    ensures Fine(n) && s == Write(n) + s[|word|..] && Meaning(n) == WordValue(word)
  {
    hide FindKeyword, WordValue;
    KeywordTaken(s, 0);
    n := Word(word);
    assert s == s[..|word|] + s[|word|..];
  }

  lemma NumeralTaken(s: Text) returns (n: Syntax)
    requires s != []
    requires var minus := if s[0] == Ch(0x2D) then 1 else 0; ParseNumber(s[minus..]).Some?
    ensures var minus := if s[0] == Ch(0x2D) then 1 else 0;
            var rest := ParseNumber(s[minus..]).value;
            && Fine(n) && s == Write(n) + rest && |rest| <= |s| && Meaning(n) == JNumber(s[..|s| - |rest|])
  {
    hide ParseNumber, FineNumeral;
    var minus := if s[0] == Ch(0x2D) then 1 else 0;
    var rest := ParseNumber(s[minus..]).value;
    var numeral := NumberTaken(s[minus..], minus == 1);
    n := Number(numeral);
    NumeralWrites(s, numeral, minus, rest);
    assert s[..|s| - |rest|] == WriteNumeral(numeral);
  }

  lemma NumeralWrites(s: Text, n: Numeral, minus: nat, rest: Text)
    requires minus <= |s| && (minus == 0 || (minus == 1 && s[0] == Ch('-' as int)))
    requires n.minus == (minus == 1) && s[minus..] == n.whole + (n.fraction + (n.exponent + rest))
    ensures s == WriteNumeral(n) + rest
  {
    assert s == s[..minus] + s[minus..];
    assert n.whole + (n.fraction + n.exponent) + rest == s[minus..];
    if minus == 1 { assert s[..1] == [Ch('-' as int)]; }
  }

  lemma ScalarTaken(s: Text) returns (n: Syntax)
    requires s != [] && ParseScalar(s).Parsed?
    ensures Fine(n) && s == Write(n) + ParseScalar(s).rest && Meaning(n) == ParseScalar(s).value
  {
    hide FindKeyword, ParseNumber, Write, Fine;
    match FindKeyword(s, 0)
    case Some(word) => n := WordTaken(s, word);
    case None => n := NumeralTaken(s);
  }

  lemma QuotedTaken(s: Text) returns (n: Syntax)
    requires s != [] && s[0] == QUOTE && ScanString(s[1..]).Scanned?
    ensures Fine(n) && s == Write(n) + ScanString(s[1..]).rest
    ensures Meaning(n) == JString(ScanString(s[1..]).value)
  {
    hide ScanString, WritePieces, FinePieces, PiecesValue;
    var pieces := StringTaken(s[1..]);
    n := Quoted(pieces);
    assert s == [QUOTE] + s[1..];
  }

  /** The value at the head of a text is written by a tree that means it. */
  lemma {:induction false} ValueTaken(s: Text) returns (n: Syntax)
    requires ParseValue(s).Parsed?
    ensures Fine(n) && s == Write(n) + ParseValue(s).rest && Meaning(n) == ParseValue(s).value
    decreases |s|, 0
  {
    hide ScanString, ParseScalar, ParseMembers, ParseItems, Write, Fine, Gap, JsonSpace, SkipSpace;
    if s[0] == QUOTE {
      n := QuotedTaken(s);
    } else if s[0] == OPEN_BRACE {
      n := ObjectTaken(s);
    } else if s[0] == OPEN_BRACKET {
      n := ListTaken(s);
    } else {
      n := ScalarTaken(s);
    }
  }

  lemma BraceCase(s: Text)
    requires s != [] && s[0] == OPEN_BRACE
    ensures var t := SkipSpace(s[1..]);
            ParseValue(s) == if t != [] && t[0] == CLOSE_BRACE then Parsed(JObject(map[]), t[1..])
                             else ParseMembers(t, map[])
    ensures |SkipSpace(s[1..])| < |s|
  {
    hide ScanString, ParseScalar, ParseMembers, ParseItems, JsonSpace, SkipSpace;
  }

  lemma EmptyObjectTaken(s: Text, gap: Text, t: Text) returns (n: Syntax)
    requires Gap(gap) && t != [] && t[0] == CLOSE_BRACE && s == [OPEN_BRACE] + (gap + t)
    ensures Fine(n) && s == Write(n) + t[1..] && Meaning(n) == JObject(map[])
  {
    hide Gap;
    n := EmptyObject(gap);
    assert t == [CLOSE_BRACE] + t[1..];
  }

  lemma ObjectOfWrites(s: Text, gap: Text, entries: Entries, t: Text, rest: Text)
    requires Gap(gap) && FineEntries(entries) && s == [OPEN_BRACE] + (gap + t) && t == WriteEntries(entries) + rest
    ensures Fine(ObjectOf(gap, entries)) && s == Write(ObjectOf(gap, entries)) + rest
    ensures Meaning(ObjectOf(gap, entries)) == JObject(Fields(entries, map[]))
  {
    hide Gap, WriteEntries, FineEntries, Fields;
  }

  lemma {:induction false} ObjectTaken(s: Text) returns (n: Syntax)
    requires s != [] && s[0] == OPEN_BRACE && ParseValue(s).Parsed?
    ensures Fine(n) && s == Write(n) + ParseValue(s).rest && Meaning(n) == ParseValue(s).value
    decreases |s|, 0, 0
  {
    hide ParseValue, ParseMembers, Write, WriteEntries, Fine, FineEntries, Meaning, Fields, Gap, JsonSpace, SkipSpace;
    BraceCase(s);
    var gap := GapTaken(s[1..]);
    var t := SkipSpace(s[1..]);
    assert s == [OPEN_BRACE] + (gap + t);
    if t != [] && t[0] == CLOSE_BRACE {
      n := EmptyObjectTaken(s, gap, t);
    } else {
      var entries := EntriesTaken(t, map[]);
      n := ObjectOf(gap, entries);
      ObjectOfWrites(s, gap, entries, t, ParseMembers(t, map[]).rest);
    }
  }

  lemma BracketCase(s: Text)
    requires s != [] && s[0] == OPEN_BRACKET
    ensures var t := SkipSpace(s[1..]);
            ParseValue(s) == if t != [] && t[0] == CLOSE_BRACKET then Parsed(JArray([]), t[1..]) else ParseItems(t, [])
    ensures |SkipSpace(s[1..])| < |s|
  {
    hide ScanString, ParseScalar, ParseMembers, ParseItems, JsonSpace, SkipSpace;
  }

  lemma EmptyListTaken(s: Text, gap: Text, t: Text) returns (n: Syntax)
    requires Gap(gap) && t != [] && t[0] == CLOSE_BRACKET && s == [OPEN_BRACKET] + (gap + t)
    ensures Fine(n) && s == Write(n) + t[1..] && Meaning(n) == JArray([])
  {
    hide Gap;
    n := EmptyList(gap);
    assert t == [CLOSE_BRACKET] + t[1..];
  }

  lemma ListOfWrites(s: Text, gap: Text, items: Items, t: Text, rest: Text)
    requires Gap(gap) && FineItems(items) && s == [OPEN_BRACKET] + (gap + t) && t == WriteItems(items) + rest
    ensures Fine(ListOf(gap, items)) && s == Write(ListOf(gap, items)) + rest
    ensures Meaning(ListOf(gap, items)) == JArray([] + Values(items))
  {
    hide Gap, WriteItems, FineItems, Values;
    assert [] + Values(items) == Values(items);
  }

  lemma {:induction false} ListTaken(s: Text) returns (n: Syntax)
    requires s != [] && s[0] == OPEN_BRACKET && ParseValue(s).Parsed?
    ensures Fine(n) && s == Write(n) + ParseValue(s).rest && Meaning(n) == ParseValue(s).value
    decreases |s|, 0, 0
  {
    hide ParseValue, ParseItems, Write, WriteItems, Fine, FineItems, Meaning, Values, Gap, JsonSpace, SkipSpace;
    BracketCase(s);
    var gap := GapTaken(s[1..]);
    var t := SkipSpace(s[1..]);
    assert s == [OPEN_BRACKET] + (gap + t);
    if t != [] && t[0] == CLOSE_BRACKET {
      n := EmptyListTaken(s, gap, t);
    } else {
      var items := ItemsTaken(t, []);
      n := ListOf(gap, items);
      ListOfWrites(s, gap, items, t, ParseItems(t, []).rest);
    }
  }

  /** How the reader goes on after an item. */
  lemma ItemsCase(s: Text, found: seq<Json>)
    requires ParseItems(s, found).Parsed?
    ensures ParseValue(s).Parsed?
    ensures var t := SkipSpace(ParseValue(s).rest);
            && t != [] && |SkipSpace(t[1..])| < |s|
            && if t[0] == COMMA
               then ParseItems(s, found) == ParseItems(SkipSpace(t[1..]), found + [ParseValue(s).value])
               else t[0] == CLOSE_BRACKET
                    && ParseItems(s, found) == Parsed(JArray(found + [ParseValue(s).value]), t[1..])
  {
    hide ParseValue, SkipSpace, JsonSpace;
  }

  lemma NextItemWrites(s: Text, node: Syntax, after: Text, gap: Text, more: Items, t: Text, u: Text, rest: Text)
    requires s == Write(node) + (after + t) && t != [] && t[0] == COMMA && t[1..] == gap + u
    requires u == WriteItems(more) + rest
    ensures s == WriteItems(NextItem(node, after, gap, more)) + rest
  {
    hide Write;
    assert t == [COMMA] + (gap + u);
  }

  lemma LastItemWrites(s: Text, node: Syntax, after: Text, t: Text)
    requires s == Write(node) + (after + t) && t != [] && t[0] == CLOSE_BRACKET
    ensures s == WriteItems(LastItem(node, after)) + t[1..]
  {
    hide Write;
    assert t == [CLOSE_BRACKET] + t[1..];
  }

  lemma NextItemMeans(node: Syntax, after: Text, gap: Text, more: Items, found: seq<Json>)
    requires Fine(node) && Gap(after) && Gap(gap) && FineItems(more)
    ensures FineItems(NextItem(node, after, gap, more))
    ensures found + [Meaning(node)] + Values(more) == found + Values(NextItem(node, after, gap, more))
  {
    hide Gap, Fine, Meaning;
  }

  lemma LastItemMeans(node: Syntax, after: Text)
    requires Fine(node) && Gap(after)
    ensures FineItems(LastItem(node, after)) && Values(LastItem(node, after)) == [Meaning(node)]
  {
    hide Gap, Fine, Meaning;
  }

  lemma {:induction false} ItemsTaken(s: Text, found: seq<Json>) returns (items: Items)
    requires ParseItems(s, found).Parsed?
    ensures FineItems(items) && s == WriteItems(items) + ParseItems(s, found).rest
    ensures ParseItems(s, found).value == JArray(found + Values(items))
    decreases |s|, 1
  {
    hide ParseValue, ParseItems, Write, WriteItems, Fine, FineItems, Gap, JsonSpace, SkipSpace, Meaning, Values;
    ItemsCase(s, found);
    var node := ValueTaken(s);
    var value, afterValue := ParseValue(s).value, ParseValue(s).rest;
    var after := GapTaken(afterValue);
    var t := SkipSpace(afterValue);
    if t[0] == COMMA {
      var gap := GapTaken(t[1..]);
      var u := SkipSpace(t[1..]);
      var more := ItemsTaken(u, found + [value]);
      items := NextItem(node, after, gap, more);
      NextItemWrites(s, node, after, gap, more, t, u, ParseItems(s, found).rest);
      NextItemMeans(node, after, gap, more, found);
    } else {
      items := LastItem(node, after);
      LastItemMeans(node, after);
      LastItemWrites(s, node, after, t);
    }
  }

  /** How the reader goes on after a key, its colon and its value. */
  lemma MembersCase(s: Text, found: map<Text, Json>)
    requires ParseMembers(s, found).Parsed?
    ensures s != [] && s[0] == QUOTE && ScanString(s[1..]).Scanned?
    ensures var colon := SkipSpace(ScanString(s[1..]).rest);
            && colon != [] && colon[0] == COLON && |SkipSpace(colon[1..])| < |s|
            && var p := ParseValue(SkipSpace(colon[1..]));
               && p.Parsed?
               && var t, next := SkipSpace(p.rest), found[ScanString(s[1..]).value := p.value];
                  && t != [] && |SkipSpace(t[1..])| < |s|
                  && if t[0] == COMMA then ParseMembers(s, found) == ParseMembers(SkipSpace(t[1..]), next)
                     else t[0] == CLOSE_BRACE && ParseMembers(s, found) == Parsed(JObject(next), t[1..])
  {
    hide ParseValue, SkipSpace, JsonSpace, ScanString;
  }

  lemma NextEntryWrites(s: Text, e: Entry, gap: Text, more: Entries, t: Text, u: Text, rest: Text)
    requires s == WriteEntry(e, Write(e.node), t) && t != [] && t[0] == COMMA && t[1..] == gap + u
    requires u == WriteEntries(more) + rest
    ensures s == WriteEntries(NextEntry(e, gap, more)) + rest
  {
    hide Write, WriteEntry;
    assert t == [COMMA] + (gap + WriteEntries(more)) + rest;
    EntryTail(e, Write(e.node), [COMMA] + (gap + WriteEntries(more)), rest);
  }

  lemma LastEntryWrites(s: Text, e: Entry, t: Text)
    requires s == WriteEntry(e, Write(e.node), t) && t != [] && t[0] == CLOSE_BRACE
    ensures s == WriteEntries(LastEntry(e)) + t[1..]
  {
    hide Write, WriteEntry;
    assert t == [CLOSE_BRACE] + t[1..];
    EntryTail(e, Write(e.node), [CLOSE_BRACE], t[1..]);
  }

  /** A member up to the character after it. */
  lemma {:induction false} EntryTaken(s: Text, found: map<Text, Json>) returns (e: Entry, t: Text)
    requires ParseMembers(s, found).Parsed?
    ensures ScanString(s[1..]).Scanned?
    ensures var p := ParseValue(SkipSpace(SkipSpace(ScanString(s[1..]).rest)[1..]));
            && FineEntry(e) && Fine(e.node) && t == SkipSpace(p.rest) && s == WriteEntry(e, Write(e.node), t)
            && PiecesValue(e.key) == ScanString(s[1..]).value && Meaning(e.node) == p.value
    decreases |s|, 1, 0
  {
    hide ParseValue, ParseMembers, Write, Fine, Gap, JsonSpace, SkipSpace, ScanString, WritePieces, FinePieces,
         PiecesValue, Meaning, WriteEntry;
    MembersCase(s, found);
    var key := StringTaken(s[1..]);
    var afterKey := ScanString(s[1..]).rest;
    var before := GapTaken(afterKey);
    var colon := SkipSpace(afterKey);
    var gap := GapTaken(colon[1..]);
    var v := SkipSpace(colon[1..]);
    var node := ValueTaken(v);
    var after := GapTaken(ParseValue(v).rest);
    t := SkipSpace(ParseValue(v).rest);
    e := Entry(key, before, gap, node, after);
    EntryWrites(s, e, Write(node), afterKey, colon, v, ParseValue(v).rest, t);
  }

  lemma {:induction false} EntriesTaken(s: Text, found: map<Text, Json>) returns (entries: Entries)
    requires ParseMembers(s, found).Parsed?
    ensures FineEntries(entries) && s == WriteEntries(entries) + ParseMembers(s, found).rest
    ensures ParseMembers(s, found).value == JObject(Fields(entries, found))
    decreases |s|, 1, 1
  {
    hide ParseValue, ParseMembers, Write, WriteEntries, WriteEntry, Fine, FineEntry, Gap, JsonSpace, SkipSpace,
         ScanString, PiecesValue, Meaning;
    MembersCase(s, found);
    var e, t := EntryTaken(s, found);
    if t[0] == COMMA {
      var gap := GapTaken(t[1..]);
      var u := SkipSpace(t[1..]);
      var more := EntriesTaken(u, found[PiecesValue(e.key) := Meaning(e.node)]) by { EntryKey(e); }
      entries := NextEntry(e, gap, more);
      NextEntryWrites(s, e, gap, more, t, u, ParseMembers(s, found).rest);
    } else {
      entries := LastEntry(e);
      LastEntryWrites(s, e, t);
    }
  }

  lemma EntryKey(e: Entry)
    requires FineEntry(e)
    ensures FinePieces(e.key)
  {
  }

  lemma EntryWrites(
    s: Text, e: Entry, written: Text, afterKey: Text, colon: Text, v: Text, afterValue: Text, t: Text)
    requires s != [] && s[0] == QUOTE && s[1..] == WritePieces(e.key) + ([QUOTE] + afterKey)
    requires afterKey == e.before + colon && colon != [] && colon[0] == COLON && colon[1..] == e.gap + v
    requires v == written + afterValue && afterValue == e.after + t
    ensures s == WriteEntry(e, written, t)
  {
    hide WritePieces;
    assert s == [QUOTE] + s[1..] && colon == [COLON] + colon[1..];
  }

  // ---------------------------------------------------------------- the theorem

  /** The text is a JSON text of the value. */
  ghost predicate IsTextOf(s: Text, v: Json) {
    exists before: Text, n: Syntax, after: Text :: Spells(s, v, before, n, after)
  }

  predicate Spells(s: Text, v: Json, before: Text, n: Syntax, after: Text) {
    Gap(before) && Gap(after) && Fine(n) && s == before + (Write(n) + after) && Meaning(n) == v
  }

  lemma SpelledLoads(s: Text, v: Json, before: Text, n: Syntax, after: Text)
    requires Spells(s, v, before, n, after)
    ensures Loads(s) == Some(v)
  {
    hide ParseValue, SkipSpace, Gap, Write, Fine, Meaning, JsonSpace, Stops;
    ValueStarts(n, after);
    GapSkipped(before, Write(n) + after);
    GapEnds(after);
    ValueIsRead(n, after);
  }

  lemma LoadedIsSpelled(s: Text, v: Json)
    requires Loads(s) == Some(v)
    ensures IsTextOf(s, v)
  {
    hide ParseValue, SkipSpace, Gap, Write, Fine, Meaning, JsonSpace;
    var before := GapTaken(s);
    var t := SkipSpace(s);
    var n := ValueTaken(t);
    var after := GapTaken(ParseValue(t).rest);
    assert after + [] == after;
    assert Spells(s, v, before, n, after);
  }

  /**
   The reader takes a text for a value exactly when it is a JSON text of that value: some syntax tree,
   with spaces around it, writes the text and means the value. So nothing else is accepted, spaces
   between tokens change nothing, and of equal keys the last one counts.
   */
  lemma LoadsExactly(s: Text, v: Json)
    ensures Loads(s) == Some(v) <==> IsTextOf(s, v)
  {
    hide Loads, Spells;
    if Loads(s) == Some(v) { LoadedIsSpelled(s, v); }
    if IsTextOf(s, v) {
      var before, n, after :| Spells(s, v, before, n, after);
      SpelledLoads(s, v, before, n, after);
    }
  }
}
