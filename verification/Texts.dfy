/**
 Python strings as sequences of code points, an idealised hash, and the whitespace
 functions `str.strip` and `" ".join(value.split())` the program uses everywhere.

 A hexadecimal digest is one symbol that carries its preimage. SHA-256 and HMAC are
 therefore free constructors: equal digests have equal preimages. Truncated digests
 (`hexdigest()[:20]`) are idealised in the same way.
 */
module Texts {

  /** Python's `str` ranges over all code points, lone surrogates included. */
  type CodePoint = c: int | 0 <= c < 0x11_0000

  datatype Symbol = Ch(code: CodePoint) | Hex(digest: Digest)

  datatype Digest = Sha256(preimage: seq<Symbol>) | Hmac(key: seq<Symbol>, message: seq<Symbol>)

  type Text = seq<Symbol>

  const SPACE: Symbol := Ch(0x20)
  const BAR: Symbol := Ch('|' as int)

  function Lit(s: string): (t: Text)
    ensures |t| == |s|
    ensures forall i | 0 <= i < |t| :: t[i] == Ch(s[i] as int)
  {
    seq(|s|, i requires 0 <= i < |s| => Ch(s[i] as int))
  }

  /** `sha256(t.encode()).hexdigest()` */
  function Sha256Hex(t: Text): Text {
    [Hex(Sha256(t))]
  }

  predicate IsHighSurrogate(c: CodePoint) { 0xD800 <= c < 0xDC00 }

  predicate IsLowSurrogate(c: CodePoint) { 0xDC00 <= c < 0xE000 }

  /** `t.encode("utf-8")` does not raise. */
  predicate Encodable(t: Text) {
    forall i | 0 <= i < |t| :: t[i].Ch? ==> !IsHighSurrogate(t[i].code) && !IsLowSurrogate(t[i].code)
  }

  lemma LitEncodable(s: string)
    ensures Encodable(Lit(s))
  {
  }

  /** `str.isspace` for one character; the class `\s` of `re` is the same set. */
  predicate IsSpace(x: Symbol) {
    x.Ch? &&
    ( 9 <= x.code <= 13 || 28 <= x.code <= 32 || x.code == 0x85 || x.code == 0xA0
      || x.code == 0x1680 || 0x2000 <= x.code <= 0x200A || x.code == 0x2028 || x.code == 0x2029
      || x.code == 0x202F || x.code == 0x205F || x.code == 0x3000)
  }

  function TrimLeft(t: Text): (r: Text)
    ensures |r| <= |t| && r == t[|t| - |r|..]
    ensures r != [] ==> !IsSpace(r[0])
    ensures forall i | 0 <= i < |t| - |r| :: IsSpace(t[i])
  {
    if t != [] && IsSpace(t[0]) then TrimLeft(t[1..]) else t
  }

  function TrimRight(t: Text): (r: Text)
    ensures |r| <= |t| && r == t[..|r|]
    ensures r != [] ==> !IsSpace(r[|r| - 1])
    ensures forall i | |r| <= i < |t| :: IsSpace(t[i])
  {
    if t != [] && IsSpace(t[|t| - 1]) then TrimRight(t[..|t| - 1]) else t
  }

  /** `t.strip()` */
  function Strip(t: Text): (r: Text)
    ensures |r| <= |t|
    ensures r != [] ==> !IsSpace(r[0]) && !IsSpace(r[|r| - 1])
  {
    TrimRight(TrimLeft(t))
  }

  predicate Trimmed(t: Text) {
    t != [] ==> !IsSpace(t[0]) && !IsSpace(t[|t| - 1])
  }

  /** Stripping changes nothing exactly when no end is a space. */
  lemma StripFixed(t: Text)
    ensures Strip(t) == t <==> Trimmed(t)
  {
  }

  lemma StripTwice(t: Text)
    ensures Strip(Strip(t)) == Strip(t)
  {
    StripFixed(Strip(t));
  }

  /** Every symbol of the stripped text is a symbol of the text, in place. */
  lemma StripIsSlice(t: Text) returns (i: nat)
    ensures i + |Strip(t)| <= |t|
    ensures Strip(t) == t[i..i + |Strip(t)|]
  {
    i := |t| - |TrimLeft(t)|;
  }

  /** Stripping drops spaces from both ends and nothing else. */
  lemma StripDropsSpaces(t: Text) returns (i: nat)
    ensures i + |Strip(t)| <= |t| && Strip(t) == t[i..i + |Strip(t)|] && Trimmed(Strip(t))
    ensures forall k | 0 <= k < i || i + |Strip(t)| <= k < |t| :: IsSpace(t[k])
  {
    i := |t| - |TrimLeft(t)|;
  }

  predicate IsBlank(t: Text) { forall i | 0 <= i < |t| :: IsSpace(t[i]) }

  lemma BlankIff(t: Text)
    ensures Strip(t) == [] <==> IsBlank(t)
  {
    hide IsSpace, Strip;
    var i := StripDropsSpaces(t);
    if Strip(t) != [] { assert t[i] == Strip(t)[0]; }
  }

  // ---------------------------------------------------------------- separators

  predicate Without(x: Symbol, t: Text) { forall i | 0 <= i < |t| :: t[i] != x }

  /** A text up to its first separator is determined by the whole. */
  lemma SplitAtFirst(x: Symbol, a: Text, b: Text, c: Text, d: Text)
    requires Without(x, a) && Without(x, c)
    requires a + [x] + b == c + [x] + d
    ensures a == c && b == d
  {
    var whole := a + [x] + b;
    assert whole[|a|] == x;
    assert (c + [x] + d)[|c|] == x;
    assert |a| == |c|;
    assert a == whole[..|a|] && c == (c + [x] + d)[..|c|];
    assert b == whole[|a| + 1..] && d == (c + [x] + d)[|c| + 1..];
  }

  /** `sep.join(parts)` */
  function Join(sep: Text, parts: seq<Text>): Text {
    if parts == [] then []
    else if |parts| == 1 then parts[0]
    else parts[0] + sep + Join(sep, parts[1..])
  }

  // ---------------------------------------------------------------- whitespace normal form

  predicate IsWord(w: Text) { w != [] && forall i | 0 <= i < |w| :: !IsSpace(w[i]) }

  /** `t.split()`: the maximal runs of non-space characters, in order. */
  function Words(t: Text): (ws: seq<Text>)
    ensures forall k | 0 <= k < |ws| :: IsWord(ws[k])
    ensures t != [] && !IsSpace(t[0]) ==> ws != []
  {
    if t == [] then []
    else if IsSpace(t[0]) then Words(t[1..])
    else if |t| == 1 || IsSpace(t[1]) then [[t[0]]] + Words(t[1..])
    else
      var ws := Words(t[1..]);
      [[t[0]] + ws[0]] + ws[1..]
  }

  /** `" ".join(t.split())` */
  function Normalize(t: Text): Text {
    Join([SPACE], Words(t))
  }

  /** No space at either end, and every inner space is a single U+0020. */
  predicate Tidy(t: Text) {
    && Trimmed(t)
    && (forall i | 0 <= i < |t| :: IsSpace(t[i]) ==> t[i] == SPACE)
    && (forall i | 0 <= i < |t| - 1 :: IsSpace(t[i]) ==> !IsSpace(t[i + 1]))
  }

  /** Splitting distributes over texts joined by a space. */
  lemma {:induction false} WordsOfJoined(a: Text, sp: Symbol, b: Text)
    requires IsSpace(sp)
    ensures Words(a + [sp] + b) == Words(a) + Words(b)
  {
    hide IsSpace;
    var whole := a + [sp] + b;
    if a == [] {
      assert whole[1..] == b;
    } else {
      assert whole[1..] == a[1..] + [sp] + b;
      WordsOfJoined(a[1..], sp, b);
      if |a| > 1 { assert whole[1] == a[1]; }
    }
  }

  lemma {:induction false} WordOfWord(w: Text)
    requires IsWord(w)
    ensures Words(w) == [w]
  {
    if |w| == 1 {
      assert [w[0]] == w;
    } else {
      assert IsWord(w[1..]) by {
        forall i | 0 <= i < |w[1..]| ensures !IsSpace(w[1..][i]) { assert w[1..][i] == w[i + 1]; }
      }
      WordOfWord(w[1..]);
      assert [w[0]] + w[1..] == w;
    }
  }

  /** Splitting the joined words gives the words back. */
  lemma {:induction false} WordsOfJoin(ws: seq<Text>)
    requires forall k | 0 <= k < |ws| :: IsWord(ws[k])
    ensures Words(Join([SPACE], ws)) == ws
  {
    if |ws| == 1 {
      WordOfWord(ws[0]);
    } else if |ws| > 1 {
      WordOfWord(ws[0]);
      WordsOfJoined(ws[0], SPACE, Join([SPACE], ws[1..]));
      WordsOfJoin(ws[1..]);
    }
  }

  lemma {:induction false} JoinIsTidy(ws: seq<Text>)
    requires forall k | 0 <= k < |ws| :: IsWord(ws[k])
    ensures Tidy(Join([SPACE], ws))
    ensures ws != [] ==> Join([SPACE], ws) != []
  {
    if |ws| > 1 {
      JoinIsTidy(ws[1..]);
    }
  }

  lemma JoinFirst(x: Text, ws: seq<Text>)
    ensures Join([SPACE], [x] + ws) == if ws == [] then x else x + [SPACE] + Join([SPACE], ws)
  {
    assert ([x] + ws)[1..] == ws;
  }

  lemma JoinGrown(c: Symbol, ws: seq<Text>)
    requires ws != []
    ensures Join([SPACE], [[c] + ws[0]] + ws[1..]) == [c] + Join([SPACE], ws)
  {
    hide Join;
    JoinFirst([c] + ws[0], ws[1..]);
    JoinFirst(ws[0], ws[1..]);
    assert [ws[0]] + ws[1..] == ws;
  }

  lemma TidyRest(t: Text)
    requires Tidy(t) && |t| > 1
    ensures if IsSpace(t[1]) then |t| > 2 && t[1] == SPACE && !IsSpace(t[2]) && Tidy(t[2..]) else Tidy(t[1..])
  {
    hide IsSpace;
  }

  lemma {:induction false} TidyJoins(t: Text)
    requires Tidy(t)
    ensures Normalize(t) == t
  {
    hide IsSpace, Tidy, Join;
    if t == [] {
      EmptyJoin();
    } else if |t| == 1 {
      TidyEnds(t);
      JoinFirst([t[0]], []);
      assert Words(t[1..]) == [] && [[t[0]]] + [] == [[t[0]]];
    } else {
      TidyRest(t);
      TidyEnds(t);
      if IsSpace(t[1]) {
        TidyJoins(t[2..]);
        assert t[1..][1..] == t[2..];
        JoinFirst([t[0]], Words(t[2..]));
        assert Words(t[1..]) == Words(t[2..]) && Words(t[2..]) != [];
        assert Words(t) == [[t[0]]] + Words(t[2..]);
        assert t == [t[0]] + [SPACE] + t[2..];
      } else {
        TidyJoins(t[1..]);
        JoinGrown(t[0], Words(t[1..]));
        assert t == [t[0]] + t[1..];
      }
    }
  }

  lemma EmptyJoin()
    ensures Join([SPACE], []) == []
  {
  }

  lemma TidyEnds(t: Text)
    requires Tidy(t) && t != []
    ensures !IsSpace(t[0])
  {
    hide IsSpace;
  }

  /** The whitespace normal forms are exactly the tidy texts. */
  lemma TidyIffNormal(t: Text)
    ensures Tidy(t) <==> Normalize(t) == t
  {
    if Tidy(t) { TidyJoins(t); }
    JoinIsTidy(Words(t));
  }

  /** Normalization is idempotent. */
  lemma NormalizeIdempotent(t: Text)
    ensures Normalize(Normalize(t)) == Normalize(t)
    ensures Tidy(Normalize(t))
  {
    WordsOfJoin(Words(t));
    JoinIsTidy(Words(t));
  }

  /** Every non-space character in order; before each but the first, one U+0020 if spaces came before it. */
  function Squeezed(t: Text, begun: bool, gap: bool): Text {
    if t == [] then []
    else if IsSpace(t[0]) then Squeezed(t[1..], begun, true)
    else (if begun && gap then [Ch(0x20)] else []) + [t[0]] + Squeezed(t[1..], true, false)
  }

  lemma {:induction false} JoinSqueezes(t: Text, gap: bool)
    ensures Squeezed(t, false, gap) == Normalize(t)
    ensures Squeezed(t, true, true) == if Words(t) == [] then [] else [SPACE] + Normalize(t)
    ensures Squeezed(t, true, false) ==
            if t != [] && !IsSpace(t[0]) then Normalize(t) else if Words(t) == [] then [] else [SPACE] + Normalize(t)
  {
    hide IsSpace, Join;
    EmptyJoin();
    if t != [] {
      JoinSqueezes(t[1..], true);
      JoinSqueezes(t[1..], false);
      JoinFirst([t[0]], Words(t[1..]));
      if Words(t[1..]) != [] { JoinGrown(t[0], Words(t[1..])); }
    }
  }

  lemma NormalizeSqueezes(t: Text)
    ensures Normalize(t) == Squeezed(t, false, false)
  {
    JoinSqueezes(t, false);
  }

  const WHITESPACE: set<int> :=
    {9, 10, 11, 12, 13, 28, 29, 30, 31, 32, 0x85, 0xA0, 0x1680, 0x2000, 0x2001, 0x2002, 0x2003, 0x2004, 0x2005,
     0x2006, 0x2007, 0x2008, 0x2009, 0x200A, 0x2028, 0x2029, 0x202F, 0x205F, 0x3000}

  /** The 29 characters Python counts as whitespace. */
  lemma SpaceCodes(x: Symbol)
    ensures IsSpace(x) <==> x.Ch? && x.code in WHITESPACE
  {
  }

  /** Normalizing space-joined parts only depends on the normalized parts. */
  lemma {:induction false} NormalizeDistributes(parts: seq<Text>)
    ensures Words(Join([SPACE], parts)) == AllWords(parts)
    ensures Normalize(Join([SPACE], parts)) == Normalize(Join([SPACE], NormalizeEach(parts)))
  {
    WordsOfParts(parts);
    WordsOfParts(NormalizeEach(parts));
    AllWordsNormalized(parts);
  }

  function AllWords(parts: seq<Text>): seq<Text> {
    if parts == [] then [] else Words(parts[0]) + AllWords(parts[1..])
  }

  function NormalizeEach(parts: seq<Text>): (r: seq<Text>)
    ensures |r| == |parts|
  {
    if parts == [] then [] else [Normalize(parts[0])] + NormalizeEach(parts[1..])
  }

  lemma {:induction false} WordsOfParts(parts: seq<Text>)
    ensures Words(Join([SPACE], parts)) == AllWords(parts)
  {
    if |parts| == 1 {
      assert AllWords(parts[1..]) == [];
    } else if |parts| > 1 {
      WordsOfJoined(parts[0], SPACE, Join([SPACE], parts[1..]));
      WordsOfParts(parts[1..]);
    }
  }

  lemma {:induction false} AllWordsNormalized(parts: seq<Text>)
    ensures AllWords(NormalizeEach(parts)) == AllWords(parts)
  {
    if parts != [] {
      WordsOfJoin(Words(parts[0]));
      AllWordsNormalized(parts[1..]);
      assert NormalizeEach(parts)[1..] == NormalizeEach(parts[1..]);
    }
  }
}
