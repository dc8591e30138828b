/**
 From fetched page to evidence: visible HTML text, whitespace normal form, text segments, and
 the segments some content has that its predecessor had not.
 */
module PageEvidence {
  import opened Wrappers
  import opened Texts

  // ---------------------------------------------------------------- visible text

  /** What Python's `HTMLParser` reports; tag names arrive in lower case. */
  datatype Token = StartTag(name: Text) | EndTag(name: Text) | Data(text: Text)

  function IgnoredTags(): set<Text> {
    {Lit("script"), Lit("style"), Lit("template"), Lit("noscript"), Lit("svg"), Lit("canvas")}
  }

  predicate Opens(t: Token) { t.StartTag? && t.name in IgnoredTags() }

  predicate Closes(t: Token) { t.EndTag? && t.name in IgnoredTags() }

  /** The depth after the tokens, and the data seen at depth zero. */
  function Extract(tokens: seq<Token>, depth: nat): (nat, seq<Text>) {
    if tokens == [] then (depth, [])
    else if Opens(tokens[0]) then Extract(tokens[1..], depth + 1)
    else if Closes(tokens[0]) && depth > 0 then Extract(tokens[1..], depth - 1)
    else
      var (end, parts) := Extract(tokens[1..], depth);
      (end, if tokens[0].Data? && depth == 0 then [tokens[0].text] + parts else parts)
  }

  class VisibleHtmlTextExtractor {
    var ignoredDepth: nat
    var parts: seq<Text>

    constructor ()
      ensures ignoredDepth == 0 && parts == []
    {
      ignoredDepth := 0;
      parts := [];
    }

    method Handle(t: Token)
      modifies this
      ensures ignoredDepth == Extract([t], old(ignoredDepth)).0
      ensures parts == old(parts) + Extract([t], old(ignoredDepth)).1
    {
      match t {
        case StartTag(name) => if name in IgnoredTags() { ignoredDepth := ignoredDepth + 1; }
        case EndTag(name) => if name in IgnoredTags() && ignoredDepth > 0 { ignoredDepth := ignoredDepth - 1; }
        case Data(text) => if ignoredDepth == 0 { parts := parts + [text]; }
      }
      assert [t][1..] == [];
    }

    method Feed(tokens: seq<Token>)
      modifies this
      ensures ignoredDepth == Extract(tokens, old(ignoredDepth)).0
      ensures parts == old(parts) + Extract(tokens, old(ignoredDepth)).1
    {
      for i := 0 to |tokens|
        invariant ignoredDepth == Extract(tokens[..i], old(ignoredDepth)).0
        invariant parts == old(parts) + Extract(tokens[..i], old(ignoredDepth)).1
      {
        ExtractAppend(tokens[..i], [tokens[i]], old(ignoredDepth));
        assert tokens[..i] + [tokens[i]] == tokens[..i + 1];
        Handle(tokens[i]);
      }
      assert tokens[..|tokens|] == tokens;
    }

    method VisibleText() returns (text: Text)
      ensures text == Join([SPACE], parts)
    {
      text := Join([SPACE], parts);
    }
  }

  lemma {:induction false} ExtractAppend(a: seq<Token>, b: seq<Token>, depth: nat)
    ensures var (middle, first) := Extract(a, depth);
            var (end, second) := Extract(b, middle);
            Extract(a + b, depth) == (end, first + second)
  {
    hide Opens, Closes;
    if a == [] {
      assert a + b == b;
      assert [] + Extract(b, depth).1 == Extract(b, depth).1;
    } else {
      assert (a + b)[1..] == a[1..] + b;
      var next := if Opens(a[0]) then depth + 1 else if Closes(a[0]) && depth > 0 then depth - 1 else depth;
      ExtractAppend(a[1..], b, next);
      var (middle, first) := Extract(a[1..], next);
      var second := Extract(b, middle).1;
      if a[0].Data? { assert [a[0].text] + first + second == [a[0].text] + (first + second); }
    }
  }

  /** Net nesting of ignored tags. */
  function Level(tokens: seq<Token>): int {
    if tokens == [] then 0
    else (if Opens(tokens[0]) then 1 else if Closes(tokens[0]) then -1 else 0) + Level(tokens[1..])
  }

  /** A balanced ignored block: it opens, stays open inside, and closes at its end; its content is arbitrary. */
  predicate IsIgnoredBlock(b: seq<Token>) {
    && |b| >= 2 && Opens(b[0]) && Level(b) == 0
    && forall k | 1 <= k < |b| :: Level(b[..k]) >= 1
  }

  lemma {:induction false} NothingVisibleInside(b: seq<Token>, depth: nat)
    requires forall k | 0 <= k < |b| :: depth + Level(b[..k]) >= 1
    ensures depth + Level(b) >= 0 && Extract(b, depth) == (depth + Level(b), [])
  {
    hide Opens, Closes;
    if b != [] {
      var step := if Opens(b[0]) then 1 else if Closes(b[0]) then -1 else 0;
      assert depth >= 1 by { assert b[..0] == []; assert Level(b[..0]) == 0; }
      forall k | 0 <= k < |b[1..]| ensures depth + step + Level(b[1..][..k]) >= 1 {
        assert b[..k + 1][1..] == b[1..][..k];
        assert Level(b[..k + 1]) == step + Level(b[1..][..k]);
      }
      NothingVisibleInside(b[1..], depth + step);
    }
  }

  lemma BlockIsInvisible(b: seq<Token>, depth: nat)
    requires IsIgnoredBlock(b)
    ensures Extract(b, depth) == (depth, [])
  {
    hide Opens, Closes;
    var inner := b[1..];
    assert Level(b) == 1 + Level(inner);
    forall k | 0 <= k < |inner| ensures depth + 1 + Level(inner[..k]) >= 1 {
      assert b[..k + 1][1..] == inner[..k];
      assert Level(b[..k + 1]) == 1 + Level(inner[..k]);
    }
    NothingVisibleInside(inner, depth + 1);
  }

  datatype Splice = Splice(at: nat, block: seq<Token>)

  /** Insert blocks one after another, each at a position of the stream so far. */
  predicate SpliceFits(tokens: seq<Token>, splices: seq<Splice>)
    decreases |splices|
  {
    splices == [] ||
    (splices[0].at <= |tokens| && IsIgnoredBlock(splices[0].block)
      && SpliceFits(InsertBlock(tokens, splices[0]), splices[1..]))
  }

  function InsertBlock(tokens: seq<Token>, s: Splice): seq<Token>
    requires s.at <= |tokens|
  {
    tokens[..s.at] + s.block + tokens[s.at..]
  }

  function SpliceAll(tokens: seq<Token>, splices: seq<Splice>): seq<Token>
    requires SpliceFits(tokens, splices)
    decreases |splices|
  {
    if splices == [] then tokens else SpliceAll(InsertBlock(tokens, splices[0]), splices[1..])
  }

  lemma InsertKeepsVisible(tokens: seq<Token>, s: Splice, depth: nat)
    requires s.at <= |tokens| && IsIgnoredBlock(s.block)
    ensures Extract(InsertBlock(tokens, s), depth) == Extract(tokens, depth)
  {
    hide Extract, IsIgnoredBlock;
    var a, b := tokens[..s.at], tokens[s.at..];
    assert tokens == a + b;
    ExtractAppend(a, b, depth);
    ExtractAppend(a + s.block, b, depth);
    ExtractAppend(a, s.block, depth);
    BlockIsInvisible(s.block, Extract(a, depth).0);
    assert Extract(a, depth).1 + [] == Extract(a, depth).1;
  }

  lemma {:induction false} SplicesKeepVisible(tokens: seq<Token>, splices: seq<Splice>)
    requires SpliceFits(tokens, splices)
    ensures Extract(SpliceAll(tokens, splices), 0) == Extract(tokens, 0)
    decreases |splices|
  {
    hide Extract, InsertBlock, IsIgnoredBlock;
    if splices != [] {
      InsertKeepsVisible(tokens, splices[0], 0);
      SplicesKeepVisible(InsertBlock(tokens, splices[0]), splices[1..]);
    }
  }

  // ---------------------------------------------------------------- what is visible, by position

  predicate IgnoredName(name: Text) {
    || name == Lit("script") || name == Lit("style") || name == Lit("template")
    || name == Lit("noscript") || name == Lit("svg") || name == Lit("canvas")
  }

  /** Opening minus closing tags of the ignored names. */
  function Nesting(tokens: seq<Token>): int {
    if tokens == [] then 0
    else
      var n := |tokens| - 1;
      Nesting(tokens[..n]) + match tokens[n]
                             case StartTag(name) => if IgnoredName(name) then 1 else 0
                             case EndTag(name) => if IgnoredName(name) then -1 else 0
                             case Data(_) => 0
  }

  /** Every ignored opening before the position is matched by a closing between them. */
  predicate Uncovered(tokens: seq<Token>, i: nat)
    requires i <= |tokens|
  {
    forall j | 0 <= j <= i :: Nesting(tokens[j..i]) <= 0
  }

  /** The data at uncovered positions, in order. */
  function UncoveredData(tokens: seq<Token>): seq<Text> {
    if tokens == [] then []
    else
      var n := |tokens| - 1;
      UncoveredData(tokens[..n]) + if tokens[n].Data? && Uncovered(tokens, n) then [tokens[n].text] else []
  }

  lemma OpensByName(t: Token)
    ensures Opens(t) <==> t.StartTag? && IgnoredName(t.name)
    ensures Closes(t) <==> t.EndTag? && IgnoredName(t.name)
  {
    hide Lit;
  }

  lemma NestingStep(tokens: seq<Token>, j: nat)
    requires j < |tokens|
    ensures var n := |tokens| - 1;
            Nesting(tokens[j..]) == Nesting(tokens[j..n]) +
                                    if Opens(tokens[n]) then 1 else if Closes(tokens[n]) then -1 else 0
  {
    hide Opens, Closes, IgnoredName;
    var n := |tokens| - 1;
    OpensByName(tokens[n]);
    assert tokens[j..][..n - j] == tokens[j..n];
  }

  /** The counter is the deepest nesting of a suffix. */
  lemma {:induction false} DepthIsNesting(tokens: seq<Token>)
    ensures forall j | 0 <= j <= |tokens| :: Nesting(tokens[j..]) <= Extract(tokens, 0).0
    ensures exists j :: 0 <= j <= |tokens| && Nesting(tokens[j..]) == Extract(tokens, 0).0
  {
    hide Opens, Closes, Nesting;
    assert Nesting(tokens[|tokens|..]) == 0 by { EmptyNesting(tokens[|tokens|..]); }
    if tokens != [] {
      var n := |tokens| - 1;
      var prior := tokens[..n];
      DepthIsNesting(prior);
      ExtractAppend(prior, [tokens[n]], 0);
      assert prior + [tokens[n]] == tokens && [tokens[n]][1..] == [];
      forall j | 0 <= j <= n
        ensures Nesting(tokens[j..]) == Nesting(prior[j..]) +
                                        if Opens(tokens[n]) then 1 else if Closes(tokens[n]) then -1 else 0
      {
        NestingStep(tokens, j);
        assert prior[j..] == tokens[j..n];
      }
      var j :| 0 <= j <= n && Nesting(prior[j..]) == Extract(prior, 0).0;
      if Extract(tokens, 0).0 > 0 || !Closes(tokens[n]) {
        OneTag(tokens[n]);
        assert Nesting(tokens[j..]) == Extract(tokens, 0).0;
      } else {
        assert Nesting(tokens[n + 1..]) == Extract(tokens, 0).0;
      }
    }
  }

  lemma OneTag(t: Token)
    ensures !(Opens(t) && Closes(t))
  {
  }

  lemma EmptyNesting(tokens: seq<Token>)
    requires tokens == []
    ensures Nesting(tokens) == 0
  {
  }

  /** Visible is exactly the data that no ignored opening before it still covers, in order. */
  lemma {:induction false} VisibleIsUncovered(tokens: seq<Token>)
    ensures Extract(tokens, 0).1 == UncoveredData(tokens)
  {
    hide Nesting, Opens, Closes;
    if tokens != [] {
      var n := |tokens| - 1;
      var prior := tokens[..n];
      VisibleIsUncovered(prior);
      ExtractAppend(prior, [tokens[n]], 0);
      assert prior + [tokens[n]] == tokens && [tokens[n]][1..] == [];
      DepthIsNesting(prior);
      assert forall j | 0 <= j <= n :: prior[j..] == tokens[j..n];
      var depth := Extract(prior, 0).0;
      OneTokenShows(tokens[n], depth);
      assert Uncovered(tokens, n) <==> depth == 0 by { assert prior[n..] == []; EmptyNesting(prior[n..]); }
    }
  }

  lemma OneTokenShows(t: Token, depth: nat)
    ensures Extract([t], depth).1 == if t.Data? && depth == 0 then [t.text] else []
  {
    assert [t][1..] == [];
  }

  // ---------------------------------------------------------------- normalized content

  function ReplaceNul(t: Text): (r: Text)
    ensures |r| == |t|
    ensures forall i | 0 <= i < |t| :: r[i] == if t[i] == Ch(0) then Ch(0x20) else t[i]
  {
    seq(|t|, i requires 0 <= i < |t| => if t[i] == Ch(0) then SPACE else t[i])
  }

  /** The tail of `_normalize_public_source_content`; None is "registry_source_content_empty". */
  function NormalizedContent(value: Text): Option<Text> {
    var normalized := Normalize(ReplaceNul(value));
    if normalized == [] then None else Some(normalized)
  }

  function HtmlContent(tokens: seq<Token>): Option<Text> {
    NormalizedContent(Join([SPACE], Extract(tokens, 0).1))
  }

  /** Token streams that differ only by balanced ignored blocks have the same normalized content. */
  lemma SplicedStreamsSameContent(tokens: seq<Token>, xs: seq<Splice>, ys: seq<Splice>)
    requires SpliceFits(tokens, xs) && SpliceFits(tokens, ys)
    ensures HtmlContent(SpliceAll(tokens, xs)) == HtmlContent(SpliceAll(tokens, ys))
  {
    hide Extract, SpliceAll, NormalizedContent;
    SplicesKeepVisible(tokens, xs);
    SplicesKeepVisible(tokens, ys);
  }

  lemma {:induction false} BlankHasNoWord(t: Text)
    ensures Words(t) == [] <==> forall i | 0 <= i < |t| :: IsSpace(t[i])
  {
    hide IsSpace;
    if t != [] {
      BlankHasNoWord(t[1..]);
      assert (forall i | 0 <= i < |t| :: IsSpace(t[i])) <==>
             IsSpace(t[0]) && forall i | 0 <= i < |t[1..]| :: IsSpace(t[1..][i]) by {
        assert forall i | 0 < i < |t| :: t[i] == t[1..][i - 1];
      }
    }
  }

  /**
   Content is refused exactly when it is all whitespace and U+0000; otherwise its normal form keeps
   every other character in order, with one space where there was any gap.
   */
  lemma ContentIsTidy(value: Text)
    ensures match NormalizedContent(value)
            case Some(t) => t != [] && Tidy(t) && Normalize(t) == t && t == Squeezed(ReplaceNul(value), false, false)
            case None => forall i | 0 <= i < |value| :: IsSpace(value[i]) || value[i] == Ch(0)
    ensures (forall i | 0 <= i < |value| :: IsSpace(value[i]) || value[i] == Ch(0)) ==> NormalizedContent(value) == None
  {
    hide IsSpace, Tidy, Squeezed, Words, Join;
    var v := ReplaceNul(value);
    NormalizeIdempotent(v);
    NormalizeSqueezes(v);
    BlankHasNoWord(v);
    JoinIsTidy(Words(v));
    EmptyJoin();
    SpaceIsSpace();
    assert forall i | 0 <= i < |value| :: IsSpace(v[i]) <==> IsSpace(value[i]) || value[i] == Ch(0);
  }

  lemma SpaceIsSpace()
    ensures IsSpace(Ch(0x20)) && !IsSpace(Ch(0))
  {
  }

  function NulFree(parts: seq<Text>): (r: seq<Text>)
    ensures |r| == |parts| && forall i | 0 <= i < |r| :: r[i] == ReplaceNul(parts[i])
  {
    seq(|parts|, i requires 0 <= i < |parts| => ReplaceNul(parts[i]))
  }

  lemma NulAppend(a: Text, b: Text)
    ensures ReplaceNul(a + b) == ReplaceNul(a) + ReplaceNul(b)
  {
  }

  lemma {:induction false} NulJoin(parts: seq<Text>)
    ensures ReplaceNul(Join([SPACE], parts)) == Join([SPACE], NulFree(parts))
  {
    hide ReplaceNul;
    if parts == [] {
      EmptyNul();
    } else if |parts| > 1 {
      var rest := Join([SPACE], parts[1..]);
      NulJoin(parts[1..]);
      NulAppend(parts[0], [SPACE]);
      NulAppend(parts[0] + [SPACE], rest);
      EmptyNul();
      assert NulFree(parts)[1..] == NulFree(parts[1..]);
    }
  }

  lemma EmptyNul()
    ensures ReplaceNul([]) == [] && ReplaceNul([SPACE]) == [SPACE]
  {
  }

  /**
   The words of a page's content are the words of its uncovered data, one after another: a word never
   runs from one piece of data into the next. A page without a word has no content.
   */
  lemma HtmlWords(tokens: seq<Token>)
    ensures var words := AllWords(NulFree(UncoveredData(tokens)));
            match HtmlContent(tokens)
            case Some(t) => Words(t) == words && words != []
            case None => words == []
  {
    hide Extract, UncoveredData, ReplaceNul, Words, Join;
    VisibleIsUncovered(tokens);
    var parts := UncoveredData(tokens);
    NulJoin(parts);
    WordsOfParts(NulFree(parts));
    var words := AllWords(NulFree(parts));
    WordsOfJoin(words);
    JoinIsTidy(words);
    EmptyJoin();
  }

  // ---------------------------------------------------------------- segmentation

  predicate IsTerminator(x: Symbol) { x == Ch(0x2E) || x == Ch(0x21) || x == Ch(0x3F) }

  predicate IsBullet(x: Symbol) { x == Ch(0x2022) || x == Ch(0x25AA) }

  function SpaceRunEnd(s: Text, i: nat): (r: nat)
    requires i <= |s|
    ensures i <= r <= |s| && (r < |s| ==> !IsSpace(s[r]))
    ensures forall k | i <= k < r :: IsSpace(s[k])
    decreases |s| - i
  {
    if i < |s| && IsSpace(s[i]) then SpaceRunEnd(s, i + 1) else i
  }

  /** Where a match of the separator pattern starting at i ends; i itself when there is none. */
  function SeparatorEnd(s: Text, i: nat): (r: nat)
    requires i < |s|
    ensures i <= r <= |s|
    ensures r > i ==> IsSpace(s[i])
  {
    if !IsSpace(s[i]) then i
    else
      var k := SpaceRunEnd(s, i);
      if i > 0 && IsTerminator(s[i - 1]) then k
      else if k + 1 < |s| && IsBullet(s[k]) && IsSpace(s[k + 1]) then SpaceRunEnd(s, k + 1)
      else i
  }

  datatype Pieces = Pieces(pieces: seq<Text>, separators: seq<Text>)

  /** Split s[start..], scanning from pos. */
  function SplitFrom(s: Text, start: nat, pos: nat): (r: Pieces)
    requires start <= pos <= |s|
    ensures |r.pieces| == |r.separators| + 1
    decreases |s| - pos
  {
    if pos == |s| then Pieces([s[start..]], [])
    else
      var j := SeparatorEnd(s, pos);
      if j == pos then SplitFrom(s, start, pos + 1)
      else
        var rest := SplitFrom(s, j, j);
        Pieces([s[start..pos]] + rest.pieces, [s[pos..j]] + rest.separators)
  }

  /** `re.split(r"(?<=[.!?])\s+|\s+[•▪]\s+", s)` with what it drops. */
  function Split(s: Text): (r: Pieces)
    ensures |r.pieces| == |r.separators| + 1
  {
    SplitFrom(s, 0, 0)
  }

  function Rebuild(pieces: seq<Text>, separators: seq<Text>): Text
    requires |pieces| == |separators| + 1
  {
    if separators == [] then pieces[0] else pieces[0] + separators[0] + Rebuild(pieces[1..], separators[1..])
  }

  lemma {:induction false} SplitRebuildsFrom(s: Text, start: nat, pos: nat)
    requires start <= pos <= |s|
    ensures Rebuild(SplitFrom(s, start, pos).pieces, SplitFrom(s, start, pos).separators) == s[start..]
    decreases |s| - pos
  {
    hide SeparatorEnd;
    if pos < |s| {
      var j := SeparatorEnd(s, pos);
      if j == pos {
        SplitRebuildsFrom(s, start, pos + 1);
      } else {
        SplitRebuildsFrom(s, j, j);
        assert SplitFrom(s, start, pos).pieces[1..] == SplitFrom(s, j, j).pieces;
        assert SplitFrom(s, start, pos).separators[1..] == SplitFrom(s, j, j).separators;
        assert s[start..] == s[start..pos] + s[pos..j] + s[j..];
      }
    }
  }

  /** Pieces and separators put together again are the content. */
  lemma SplitRebuilds(s: Text)
    ensures Rebuild(Split(s).pieces, Split(s).separators) == s
  {
    SplitRebuildsFrom(s, 0, 0);
  }

  predicate AllSpaces(s: Text, i: nat, j: nat) {
    i < j <= |s| && forall k | i <= k < j :: IsSpace(s[k])
  }

  /** `(?<=[.!?])\s+` matches s[i..j]. */
  predicate AfterTerminator(s: Text, i: nat, j: nat) {
    0 < i <= |s| && s[i - 1] in Lit(".!?") && AllSpaces(s, i, j)
  }

  /** `\s+[•▪]\s+` matches s[i..j] with its bullet at k. */
  predicate AroundBullet(s: Text, i: nat, k: nat, j: nat) {
    k < |s| && AllSpaces(s, i, k) && s[k] in [Ch(0x2022), Ch(0x25AA)] && AllSpaces(s, k + 1, j)
  }

  lemma SeparatorCharacters(x: Symbol)
    ensures IsTerminator(x) <==> x in Lit(".!?")
    ensures IsBullet(x) <==> x in [Ch(0x2022), Ch(0x25AA)]
  {
    var t := Lit(".!?");
    assert t[0] == Ch(0x2E) && t[1] == Ch(0x21) && t[2] == Ch(0x3F);
  }

  /** The scanner ends where the pattern's first matching alternative, taken greedily, ends. */
  lemma SeparatorIsMatch(s: Text, i: nat)
    requires i < |s|
    ensures var end := SeparatorEnd(s, i);
            && (end == i ==>
                  (forall j: nat :: !AfterTerminator(s, i, j)) && (forall k: nat, j: nat :: !AroundBullet(s, i, k, j)))
            && (end > i ==> AfterTerminator(s, i, end)
                            || ((forall j: nat :: !AfterTerminator(s, i, j))
                               && exists k: nat :: AroundBullet(s, i, k, end)))
            && (forall j: nat :: AfterTerminator(s, i, j) ==> AfterTerminator(s, i, end) && j <= end)
            && ((forall j: nat :: !AfterTerminator(s, i, j)) ==> forall k: nat, j: nat :: AroundBullet(s, i, k, j) ==>
               j <= end)
  {
    hide IsSpace, IsTerminator, IsBullet, Lit;
    var end := SeparatorEnd(s, i);
    if i > 0 { SeparatorCharacters(s[i - 1]); }
    forall k: nat | k < |s| ensures IsBullet(s[k]) <==> s[k] in [Ch(0x2022), Ch(0x25AA)] { SeparatorCharacters(s[k]); }
    if IsSpace(s[i]) {
      var k := SpaceRunEnd(s, i);
      RunIsLongest(s, i);
      if i > 0 && IsTerminator(s[i - 1]) {
        assert AfterTerminator(s, i, k);
      } else {
        forall l: nat, j: nat | AroundBullet(s, i, l, j) ensures l == k && end > i && j <= end {
          BulletEndsRun(s, i, l);
          RunIsLongest(s, k + 1);
        }
        if end > i { RunIsLongest(s, k + 1); assert AroundBullet(s, i, k, end); }
      }
    }
  }

  lemma RunIsLongest(s: Text, i: nat)
    requires i <= |s|
    ensures forall j: nat :: AllSpaces(s, i, j) ==> j <= SpaceRunEnd(s, i)
    ensures i < |s| && IsSpace(s[i]) ==> AllSpaces(s, i, SpaceRunEnd(s, i))
  {
    hide IsSpace;
    var r := SpaceRunEnd(s, i);
    forall j: nat | AllSpaces(s, i, j) ensures j <= r {
    }
  }

  lemma BulletIsNoSpace(x: Symbol)
    ensures IsBullet(x) ==> !IsSpace(x)
  {
  }

  lemma BulletEndsRun(s: Text, i: nat, k: nat)
    requires k < |s| && AllSpaces(s, i, k) && IsBullet(s[k])
    ensures SpaceRunEnd(s, i) == k
  {
    hide SpaceRunEnd;
    RunIsLongest(s, i);
    BulletIsNoSpace(s[k]);
  }

  /** Cut leftmost first: each separator is the match at the first position, from the last cut on, that has one. */
  ghost predicate CutLeftmost(s: Text, start: nat, pieces: seq<Text>, separators: seq<Text>)
    requires |pieces| == |separators| + 1
    decreases |separators|
  {
    if separators == [] then start <= |s| && pieces[0] == s[start..]
      && forall p | start <= p < |s| :: SeparatorEnd(s, p) == p
    else
      exists at: nat ::
        && CutAt(s, start, at, pieces[0], separators[0])
        && CutLeftmost(s, SeparatorEnd(s, at), pieces[1..], separators[1..])
  }

  predicate CutAt(s: Text, start: nat, at: nat, piece: Text, separator: Text) {
    && start <= at < |s| && SeparatorEnd(s, at) > at
    && piece == s[start..at] && separator == s[at..SeparatorEnd(s, at)]
    && forall p | start <= p < at :: SeparatorEnd(s, p) == p
  }

  lemma {:induction false} SplitFromCutsLeftmost(s: Text, start: nat, pos: nat)
    requires start <= pos <= |s| && forall p | start <= p < pos :: SeparatorEnd(s, p) == p
    ensures CutLeftmost(s, start, SplitFrom(s, start, pos).pieces, SplitFrom(s, start, pos).separators)
    decreases |s| - pos
  {
    hide SeparatorEnd;
    if pos < |s| {
      var j := SeparatorEnd(s, pos);
      if j == pos {
        SplitFromCutsLeftmost(s, start, pos + 1);
      } else {
        SplitFromCutsLeftmost(s, j, j);
        var r := SplitFrom(s, start, pos);
        assert r.pieces[1..] == SplitFrom(s, j, j).pieces && r.separators[1..] == SplitFrom(s, j, j).separators;
        assert CutAt(s, start, pos, r.pieces[0], r.separators[0]);
      }
    }
  }

  /** The split cuts at exactly the leftmost matches, one after another. */
  lemma SplitCutsLeftmost(s: Text)
    ensures CutLeftmost(s, 0, Split(s).pieces, Split(s).separators)
  {
    hide SplitFrom, CutLeftmost;
    SplitFromCutsLeftmost(s, 0, 0);
  }

  const MIN_SEGMENT: nat := 24
  const MAX_SEGMENT: nat := 800
  const MAX_SEGMENTS: nat := 120
  const MAX_CHANGED: nat := 12
  const MAX_EXCERPT: nat := 6000

  function Take<T>(s: seq<T>, n: nat): (r: seq<T>)
    ensures |r| == if |s| <= n then |s| else n
    ensures r <= s
  {
    if |s| <= n then s else s[..n]
  }

  function KeptPiece(piece: Text): seq<Text> {
    if |Strip(piece)| >= MIN_SEGMENT then [Take(Strip(Normalize(piece)), MAX_SEGMENT)] else []
  }

  function Kept(pieces: seq<Text>): seq<Text> {
    if pieces == [] then [] else KeptPiece(pieces[0]) + Kept(pieces[1..])
  }

  /** `_content_segments` */
  function ContentSegments(content: Text): (r: seq<Text>)
    ensures |r| <= MAX_SEGMENTS
  {
    Take(Kept(Split(content).pieces), MAX_SEGMENTS)
  }

  // ---------------------------------------------------------------- segments of normalized content

  /** The segments are disjoint slices of the content, in its order, from position `from` on. */
  ghost predicate InOrder(s: Text, segments: seq<Text>, from: nat)
    decreases |segments|
  {
    segments == [] ||
    exists p: nat :: SegmentAt(s, segments[0], p) && from <= p && InOrder(s, segments[1..], p + |segments[0]|)
  }

  predicate SegmentAt(s: Text, segment: Text, p: nat) {
    p + |segment| <= |s| && s[p..p + |segment|] == segment
  }

  predicate SegmentSized(segment: Text) { 24 <= |segment| <= 800 }

  lemma {:induction false} OrderWeakens(s: Text, segments: seq<Text>, from: nat, earlier: nat)
    requires InOrder(s, segments, from) && earlier <= from
    ensures InOrder(s, segments, earlier)
  {
    if segments != [] {
      var p: nat :| SegmentAt(s, segments[0], p) && from <= p && InOrder(s, segments[1..], p + |segments[0]|);
    }
  }

  lemma {:induction false} OrderOfPrefix(s: Text, segments: seq<Text>, n: nat, from: nat)
    requires InOrder(s, segments, from) && n <= |segments|
    ensures InOrder(s, segments[..n], from)
    decreases n
  {
    if n > 0 {
      var p: nat :| SegmentAt(s, segments[0], p) && from <= p && InOrder(s, segments[1..], p + |segments[0]|);
      OrderOfPrefix(s, segments[1..], n - 1, p + |segments[0]|);
      assert segments[..n][1..] == segments[1..][..n - 1];
    }
  }

  lemma SliceIsTidy(s: Text, a: nat, b: nat)
    requires Tidy(s) && a < b <= |s| && !IsSpace(s[a]) && !IsSpace(s[b - 1])
    ensures Tidy(s[a..b]) && Normalize(s[a..b]) == s[a..b] && Strip(s[a..b]) == s[a..b]
  {
    hide IsSpace, Strip, Normalize;
    var t := s[a..b];
    assert forall i | 0 <= i < |t| :: t[i] == s[a + i];
    forall i | 0 <= i < |t| - 1 && IsSpace(t[i]) ensures !IsSpace(t[i + 1]) {
      assert t[i + 1] == s[a + i + 1];
    }
    TidyIffNormal(t);
    StripFixed(t);
  }

  /** In tidy content a separator ends before a character, and never starts right after one. */
  lemma TidySeparator(s: Text, pos: nat)
    requires Tidy(s) && 0 < pos < |s| && SeparatorEnd(s, pos) > pos
    ensures SeparatorEnd(s, pos) < |s| && !IsSpace(s[SeparatorEnd(s, pos)]) && !IsSpace(s[pos - 1])
  {
    assert !IsSpace(s[|s| - 1]);
    assert !IsSpace(s[pos - 1]);
  }

  lemma KeptTidyPiece(s: Text, a: nat, b: nat)
    requires Tidy(s) && a < b <= |s| && !IsSpace(s[a]) && !IsSpace(s[b - 1])
    ensures forall k | 0 <= k < |KeptPiece(s[a..b])| :: SegmentSized(KeptPiece(s[a..b])[k])
    ensures |KeptPiece(s[a..b])| <= 1
    ensures KeptPiece(s[a..b]) != [] ==> SegmentAt(s, KeptPiece(s[a..b])[0], a) && a + |KeptPiece(s[a..b])[0]| <= b
  {
    hide Strip, Normalize, IsSpace, Tidy;
    SliceIsTidy(s, a, b);
  }

  lemma {:induction false} SegmentsFrom(s: Text, start: nat, pos: nat)
    requires Tidy(s) && start < |s| && start <= pos <= |s| && !IsSpace(s[start])
    ensures var segments := Kept(SplitFrom(s, start, pos).pieces);
            && InOrder(s, segments, start)
            && forall k | 0 <= k < |segments| :: SegmentSized(segments[k])
    decreases |s| - pos
  {
    hide Tidy, IsSpace, SeparatorEnd, KeptPiece, SegmentSized, SegmentAt;
    var segments := Kept(SplitFrom(s, start, pos).pieces);
    if pos == |s| {
      LastIsNoSpace(s);
      assert s[start..] == s[start..|s|];
      KeptTidyPiece(s, start, |s|);
      assert SplitFrom(s, start, pos).pieces[1..] == [];
      assert Kept(SplitFrom(s, start, pos).pieces[1..]) == [];
      assert segments == KeptPiece(s[start..|s|]);
      FirstSegment(s, segments, [], start, |s|);
    } else if SeparatorEnd(s, pos) == pos {
      SegmentsFrom(s, start, pos + 1);
    } else {
      var j := SeparatorEnd(s, pos);
      TidySeparator(s, pos);
      SegmentsFrom(s, j, j);
      KeptTidyPiece(s, start, pos);
      var rest := SplitFrom(s, j, j).pieces;
      assert SplitFrom(s, start, pos).pieces[1..] == rest;
      assert segments == KeptPiece(s[start..pos]) + Kept(rest);
      OrderWeakens(s, Kept(rest), j, pos);
      FirstSegment(s, KeptPiece(s[start..pos]), Kept(rest), start, pos);
    }
  }

  lemma LastIsNoSpace(s: Text)
    requires Tidy(s) && s != []
    ensures !IsSpace(s[|s| - 1])
  {
  }

  /** At most one segment from s[a..b], followed by segments from b on. */
  lemma FirstSegment(s: Text, first: seq<Text>, rest: seq<Text>, a: nat, b: nat)
    requires |first| <= 1 && a <= b
    requires first != [] ==> SegmentAt(s, first[0], a) && a + |first[0]| <= b
    requires InOrder(s, rest, b)
    ensures InOrder(s, first + rest, a)
  {
    hide SegmentAt;
    if first == [] {
      assert first + rest == rest;
      OrderWeakens(s, rest, b, a);
    } else {
      assert (first + rest)[1..] == rest;
      OrderWeakens(s, rest, b, a + |first[0]|);
    }
  }

  /**
   Of normalized content every kept segment has 24 to 800 characters, there are at most 120, and they
   are disjoint slices of the content in its order.
   */
  lemma SegmentsOfTidyContent(content: Text)
    requires Tidy(content) && content != []
    ensures var segments := ContentSegments(content);
            && |segments| <= 120
            && (forall k | 0 <= k < |segments| :: SegmentSized(segments[k]))
            && InOrder(content, segments, 0)
  {
    hide Tidy, IsSpace, SegmentSized, Kept, SplitFrom, InOrder;
    assert !IsSpace(content[0]) by { FirstIsNoSpace(content); }
    SegmentsFrom(content, 0, 0);
    OrderOfPrefix(content, Kept(Split(content).pieces), |ContentSegments(content)|, 0);
  }

  lemma FirstIsNoSpace(s: Text)
    requires Tidy(s) && s != []
    ensures !IsSpace(s[0])
  {
  }

  /** The pieces of at least 24 characters, cut to 800, as they are. */
  function LongPieces(pieces: seq<Text>): seq<Text> {
    if pieces == [] then []
    else (if |pieces[0]| >= 24 then [Take(pieces[0], 800)] else []) + LongPieces(pieces[1..])
  }

  predicate AllTidy(pieces: seq<Text>) {
    forall k | 0 <= k < |pieces| :: Tidy(pieces[k])
  }

  lemma {:induction false} PiecesFromTidy(s: Text, start: nat, pos: nat)
    requires Tidy(s) && start < |s| && start <= pos <= |s| && !IsSpace(s[start])
    ensures AllTidy(SplitFrom(s, start, pos).pieces)
    decreases |s| - pos
  {
    hide Tidy, IsSpace, SeparatorEnd;
    if pos == |s| {
      LastIsNoSpace(s);
      assert s[start..] == s[start..|s|];
      SliceIsTidy(s, start, |s|);
    } else if SeparatorEnd(s, pos) == pos {
      PiecesFromTidy(s, start, pos + 1);
    } else {
      TidySeparator(s, pos);
      PiecesFromTidy(s, SeparatorEnd(s, pos), SeparatorEnd(s, pos));
      SliceIsTidy(s, start, pos);
    }
  }

  lemma {:induction false} KeptTidyPieces(pieces: seq<Text>)
    requires AllTidy(pieces)
    ensures Kept(pieces) == LongPieces(pieces)
  {
    hide Tidy, Strip, Normalize;
    if pieces != [] {
      TidyIffNormal(pieces[0]);
      TidyIsTrimmed(pieces[0]);
      KeptTidyPieces(pieces[1..]);
    }
  }

  lemma TidyIsTrimmed(t: Text)
    requires Tidy(t)
    ensures Strip(t) == t
  {
    hide Strip, IsSpace;
    StripFixed(t);
  }

  /**
   Of normalized content the segments are the first 120 long pieces: stripping and normalizing them
   changes nothing.
   */
  lemma SegmentsAreLongPieces(content: Text)
    requires Tidy(content) && content != []
    ensures ContentSegments(content) == Take(LongPieces(Split(content).pieces), 120)
  {
    hide Tidy, IsSpace, Kept, LongPieces, SplitFrom, AllTidy;
    FirstIsNoSpace(content);
    PiecesFromTidy(content, 0, 0);
    KeptTidyPieces(Split(content).pieces);
  }

  /** The pieces with at least 24 characters between their outer spaces, normalized and cut to 800. */
  function SqueezedPieces(pieces: seq<Text>): seq<Text> {
    if pieces == [] then []
    else
      var n := |pieces| - 1;
      SqueezedPieces(pieces[..n])
      + if |Strip(pieces[n])| >= 24 then [Take(Squeezed(pieces[n], false, false), 800)] else []
  }

  lemma KeptIsSqueezed(piece: Text)
    ensures KeptPiece(piece) == if |Strip(piece)| >= 24 then [Take(Squeezed(piece, false, false), 800)] else []
  {
    hide Strip, Tidy, Squeezed, Normalize;
    NormalizeIdempotent(piece);
    TidyIsTrimmed(Normalize(piece));
    NormalizeSqueezes(piece);
  }

  lemma {:induction false} KeptAppend(pieces: seq<Text>, last: Text)
    ensures Kept(pieces + [last]) == Kept(pieces) + KeptPiece(last)
  {
    hide KeptPiece;
    if pieces == [] {
      assert pieces + [last] == [last] && [last][1..] == [];
      assert KeptPiece(last) + [] == [] + KeptPiece(last);
    } else {
      assert (pieces + [last])[1..] == pieces[1..] + [last];
      KeptAppend(pieces[1..], last);
    }
  }

  lemma {:induction false} KeptAreSqueezed(pieces: seq<Text>)
    ensures Kept(pieces) == SqueezedPieces(pieces)
  {
    hide KeptPiece, Squeezed, Strip, Kept;
    if pieces == [] {
      assert Kept([]) == [] by { NothingKept(); }
    } else {
      var n := |pieces| - 1;
      assert pieces == pieces[..n] + [pieces[n]];
      KeptAppend(pieces[..n], pieces[n]);
      KeptIsSqueezed(pieces[n]);
      KeptAreSqueezed(pieces[..n]);
    }
  }

  lemma NothingKept()
    ensures Kept([]) == []
  {
  }

  /** Of any content, the segments are the first 120 of its pieces that are long enough, normalized and cut. */
  lemma SegmentsExactly(content: Text)
    ensures ContentSegments(content) == Take(SqueezedPieces(Split(content).pieces), 120)
  {
    hide Kept, SqueezedPieces, Split;
    KeptAreSqueezed(Split(content).pieces);
  }

  // ---------------------------------------------------------------- what changed

  /** `_content_segment_hashes` */
  function SegmentHashes(content: Text): (r: seq<Text>)
    ensures |r| == |ContentSegments(content)|
    ensures forall i | 0 <= i < |r| :: r[i] == Sha256Hex(ContentSegments(content)[i])
  {
    var segments := ContentSegments(content);
    seq(|segments|, i requires 0 <= i < |segments| => Sha256Hex(segments[i]))
  }

  /** The segments whose digest is not among the known ones, in order. */
  function NewSegments(segments: seq<Text>, known: seq<Text>): seq<Text> {
    if segments == [] then []
    else
      var n := |segments| - 1;
      NewSegments(segments[..n], known) + (if Sha256Hex(segments[n]) in known then [] else [segments[n]])
  }

  /** `_changed_content_segments` */
  function ChangedSegments(priorHashes: seq<Text>, content: Text): (r: seq<Text>)
    ensures |r| <= MAX_CHANGED
  {
    Take(NewSegments(ContentSegments(content), priorHashes), MAX_CHANGED)
  }

  function NoSeparableSegment(): Text {
    Lit("No newly separable public-text segment was available; review the cited source revision.")
  }

  /** `_changed_content_excerpt` */
  function ChangedExcerpt(priorHashes: seq<Text>, content: Text): Text {
    var segments := ChangedSegments(priorHashes, content);
    if segments == [] then NoSeparableSegment() else Take(Join([Ch(10)], segments), MAX_EXCERPT)
  }

  /** `changed` lists, in order, the first `limit` entries of `current` that do not occur in `prior`. */
  ghost predicate FirstAbsent(changed: seq<Text>, current: seq<Text>, prior: seq<Text>, limit: nat) {
    exists at: seq<nat> :: AbsentPositions(at, changed, current, prior, limit)
  }

  ghost predicate AbsentPositions(at: seq<nat>, changed: seq<Text>, current: seq<Text>, prior: seq<Text>, limit: nat) {
    && |at| == |changed| <= limit
    && (forall k | 0 <= k < |at| :: at[k] < |current| && current[at[k]] == changed[k] && changed[k] !in prior)
    && (forall k, l | 0 <= k < l < |at| :: at[k] < at[l])
    && (forall j: nat | j < |current| && current[j] !in prior && j !in at ::
          |at| == limit && forall k | 0 <= k < |at| :: at[k] < j)
  }

  lemma HashKnownIff(segment: Text, content: Text)
    ensures Sha256Hex(segment) in SegmentHashes(content) <==> segment in ContentSegments(content)
  {
    hide ContentSegments;
    var segments, hashes := ContentSegments(content), SegmentHashes(content);
    if segment in segments {
      var i :| 0 <= i < |segments| && segments[i] == segment;
      assert hashes[i] == Sha256Hex(segment);
    }
    if Sha256Hex(segment) in hashes {
      var i :| 0 <= i < |hashes| && hashes[i] == Sha256Hex(segment);
      assert hashes[i][0] == Hex(Sha256(segments[i]));
      assert Sha256Hex(segment)[0] == Hex(Sha256(segment));
    }
  }

  function NewPositions(segments: seq<Text>, known: seq<Text>): seq<nat> {
    if segments == [] then []
    else
      var n := |segments| - 1;
      NewPositions(segments[..n], known) + (if Sha256Hex(segments[n]) in known then [] else [n])
  }

  lemma {:induction false} NewPositionsExact(segments: seq<Text>, known: seq<Text>)
    ensures var at, added := NewPositions(segments, known), NewSegments(segments, known);
            && |at| == |added|
            && (forall k | 0 <= k < |at| ::
                  at[k] < |segments| && segments[at[k]] == added[k] && Sha256Hex(added[k]) !in known)
            && (forall k, l | 0 <= k < l < |at| :: at[k] < at[l])
  {
    hide Sha256Hex;
    if segments != [] { NewPositionsExact(segments[..|segments| - 1], known); }
  }

  lemma {:induction false} NewIsListed(segments: seq<Text>, known: seq<Text>, j: nat)
    requires j < |segments| && Sha256Hex(segments[j]) !in known
    ensures j in NewPositions(segments, known)
  {
    hide Sha256Hex;
    var n := |segments| - 1;
    if j < n { NewIsListed(segments[..n], known, j); }
  }

  lemma TakeHolds(all: seq<nat>, limit: nat, k: nat)
    requires k < |all|
    ensures k < |Take(all, limit)| ==> all[k] in Take(all, limit)
  {
    if k < |Take(all, limit)| { assert Take(all, limit)[k] == all[k]; }
  }

  /**
   With the prior hashes taken from real content, the changed segments are exactly the first twelve,
   in order, of the content's segments that the prior content did not have.
   */
  lemma ChangedAreFirstAbsent(prior: Text, content: Text)
    ensures FirstAbsent(ChangedSegments(SegmentHashes(prior), content), ContentSegments(content),
            ContentSegments(prior), 12)
  {
    hide ContentSegments, Sha256Hex, SegmentHashes, NewSegments, NewPositions;
    var current, known := ContentSegments(content), SegmentHashes(prior);
    var all, at := NewPositions(current, known), Take(NewPositions(current, known), MAX_CHANGED);
    NewPositionsExact(current, known);
    forall j: nat | j < |current|
      ensures Sha256Hex(current[j]) in known <==> current[j] in ContentSegments(prior)
    {
      HashKnownIff(current[j], prior);
    }
    var changed := ChangedSegments(known, content);
    forall j: nat | j < |current| && current[j] !in ContentSegments(prior) && j !in at
      ensures |at| == 12 && forall k | 0 <= k < |at| :: at[k] < j
    {
      NewIsListed(current, known, j);
      var k :| 0 <= k < |all| && all[k] == j;
      TakeHolds(all, MAX_CHANGED, k);
    }
    assert AbsentPositions(at, changed, current, ContentSegments(prior), 12);
  }

  /** Content whose segments all occur in the prior content has no changed segment. */
  lemma RearrangementHasNoNewSegment(prior: Text, content: Text)
    requires forall k | 0 <= k < |ContentSegments(content)| :: ContentSegments(content)[k] in ContentSegments(prior)
    ensures ChangedSegments(SegmentHashes(prior), content) == []
    ensures ChangedExcerpt(SegmentHashes(prior), content) == NoSeparableSegment()
  {
    hide ContentSegments, ChangedSegments, NoSeparableSegment, Join, FirstAbsent;
    ChangedAreFirstAbsent(prior, content);
    AbsentIsListed(ChangedSegments(SegmentHashes(prior), content), ContentSegments(content), ContentSegments(prior),
      12);
  }

  lemma AbsentIsListed(changed: seq<Text>, current: seq<Text>, prior: seq<Text>, limit: nat)
    requires FirstAbsent(changed, current, prior, limit)
    ensures changed != [] ==> exists j :: 0 <= j < |current| && current[j] !in prior
  {
    var at :| AbsentPositions(at, changed, current, prior, limit);
    if changed != [] { assert current[at[0]] !in prior; }
  }

  lemma {:induction false} NonBlankHasWord(t: Text, i: nat)
    requires i < |t| && !IsSpace(t[i])
    ensures Words(t) != []
  {
    hide IsSpace, IsWord;
    if i > 0 {
      assert t[1..][i - 1] == t[i];
      NonBlankHasWord(t[1..], i - 1);
    }
  }

  lemma KeptPieceIsNonEmpty(piece: Text)
    ensures forall k | 0 <= k < |KeptPiece(piece)| :: KeptPiece(piece)[k] != []
  {
    hide IsSpace, Strip, Words;
    if |Strip(piece)| >= MIN_SEGMENT {
      var i := StripIsSlice(piece);
      assert piece[i] == Strip(piece)[0];
      NonBlankHasWord(piece, i);
      JoinIsTidy(Words(piece));
      StripFixed(Normalize(piece));
    }
  }

  lemma {:induction false} KeptAreNonEmpty(pieces: seq<Text>)
    ensures forall k | 0 <= k < |Kept(pieces)| :: Kept(pieces)[k] != []
  {
    hide KeptPiece;
    if pieces != [] {
      KeptPieceIsNonEmpty(pieces[0]);
      KeptAreNonEmpty(pieces[1..]);
    }
  }

  lemma {:induction false} NewSegmentsAreSegments(segments: seq<Text>, known: seq<Text>)
    ensures forall k | 0 <= k < |NewSegments(segments, known)| :: NewSegments(segments, known)[k] in segments
  {
    NewPositionsExact(segments, known);
  }

  /** The excerpt is never empty and never longer than 6000 characters, for any content. */
  lemma ExcerptBounds(priorHashes: seq<Text>, content: Text)
    ensures 0 < |ChangedExcerpt(priorHashes, content)| <= MAX_EXCERPT
  {
    hide Kept, Split, NewSegments;
    var segments := ChangedSegments(priorHashes, content);
    KeptAreNonEmpty(Split(content).pieces);
    NewSegmentsAreSegments(ContentSegments(content), priorHashes);
    if segments != [] {
      assert segments[0] in ContentSegments(content);
      var k :| 0 <= k < |ContentSegments(content)| && ContentSegments(content)[k] == segments[0];
      assert Kept(Split(content).pieces)[k] == segments[0];
    }
  }

  // ---------------------------------------------------------------- the excerpt, position by position

  /** Where the k-th of some texts starts when one character stands between neighbours. */
  function Offset(parts: seq<Text>, k: nat): (r: nat)
    requires k <= |parts|
    ensures k > 0 ==> r > 0
  {
    if k == 0 then 0 else |parts[0]| + 1 + Offset(parts[1..], k - 1)
  }

  /** The k-th text fills its place, and the separator stands before it. */
  predicate PartAt(t: Text, x: Symbol, parts: seq<Text>, k: nat)
    requires k < |parts|
  {
    var at := Offset(parts, k);
    && at + |parts[k]| <= |t| && t[at..at + |parts[k]|] == parts[k]
    && (k > 0 ==> t[at - 1] == x)
  }

  lemma {:induction false} JoinLength(x: Symbol, parts: seq<Text>)
    requires parts != []
    ensures |Join([x], parts)| == Offset(parts, |parts|) - 1
  {
    if |parts| > 1 { JoinLength(x, parts[1..]); }
  }

  /** Putting a text and a separator in front moves every place by their length. */
  lemma PlaceMoves(first: Text, x: Symbol, rest: Text, parts: seq<Text>, k: nat)
    requires |parts| > 1 && parts[0] == first && 0 < k < |parts| && PartAt(rest, x, parts[1..], k - 1)
    ensures PartAt(first + [x] + rest, x, parts, k)
  {
    hide Offset;
    var at, n := Offset(parts[1..], k - 1), |first| + 1;
    assert Offset(parts, k) == n + at by { OffsetStep(parts, k); }
    var whole := first + [x] + rest;
    assert whole[n..] == rest;
    assert whole[n + at..n + at + |parts[k]|] == rest[at..at + |parts[k]|];
    if k > 1 { assert whole[n + at - 1] == rest[at - 1]; }
    else { OffsetStart(parts[1..]); }
  }

  lemma OffsetStep(parts: seq<Text>, k: nat)
    requires 0 < k <= |parts|
    ensures Offset(parts, k) == |parts[0]| + 1 + Offset(parts[1..], k - 1)
  {
  }

  lemma OffsetStart(parts: seq<Text>)
    ensures Offset(parts, 0) == 0
  {
  }

  lemma {:induction false} JoinPlaces(x: Symbol, parts: seq<Text>, k: nat)
    requires k < |parts|
    ensures PartAt(Join([x], parts), x, parts, k)
  {
    hide Offset;
    OffsetStart(parts);
    if k > 0 {
      JoinPlaces(x, parts[1..], k - 1);
      PlaceMoves(parts[0], x, Join([x], parts[1..]), parts, k);
    } else {
      assert Join([x], parts)[..|parts[0]|] == parts[0];
    }
  }

  /**
   The text of at most 6000 characters that spells the segments in order, each at its offset, with one
   line feed between neighbours: whole when it fits, otherwise its first 6000 characters.
   */
  predicate Spells(t: Text, segments: seq<Text>)
    requires segments != []
  {
    && |t| == (if Offset(segments, |segments|) - 1 <= 6_000 then Offset(segments, |segments|) - 1 else 6_000)
    && forall k | 0 <= k < |segments| :: SpellsPart(t, segments, k)
  }

  /** As far as the text reaches, the k-th segment stands at its offset, after a line feed unless it is the first. */
  predicate SpellsPart(t: Text, segments: seq<Text>, k: nat)
    requires k < |segments|
  {
    var at := Offset(segments, k);
    && (forall i | 0 <= i < |segments[k]| && at + i < |t| :: t[at + i] == segments[k][i])
    && (k > 0 && at <= |t| ==> t[at - 1] == Ch(10))
  }

  /** The excerpt spells the changed segments, or is the fixed notice when there are none. */
  lemma ExcerptSpells(priorHashes: seq<Text>, content: Text)
    ensures var segments, t := ChangedSegments(priorHashes, content), ChangedExcerpt(priorHashes, content);
            if segments == []
            then t == Lit("No newly separable public-text segment was available; review the cited source revision.")
            else Spells(t, segments)
  {
    hide ChangedSegments, Join, Offset, SpellsPart, Lit;
    var segments, t := ChangedSegments(priorHashes, content), ChangedExcerpt(priorHashes, content);
    if segments != [] {
      JoinLength(Ch(10), segments);
      forall k | 0 <= k < |segments| ensures SpellsPart(t, segments, k) {
        JoinPlaces(Ch(10), segments, k);
        PrefixSpells(Join([Ch(10)], segments), t, segments, k);
      }
    }
  }

  lemma PrefixSpells(whole: Text, t: Text, segments: seq<Text>, k: nat)
    requires k < |segments| && PartAt(whole, Ch(10), segments, k) && t <= whole
    ensures SpellsPart(t, segments, k)
  {
    var at := Offset(segments, k);
    forall i | 0 <= i < |segments[k]| && at + i < |t| ensures t[at + i] == segments[k][i] {
      assert whole[at..at + |segments[k]|][i] == segments[k][i];
    }
  }

  // ---------------------------------------------------------------- excerpts can be hashed

  predicate AllEncodable(parts: seq<Text>) {
    forall k | 0 <= k < |parts| :: Encodable(parts[k])
  }

  lemma SliceEncodable(t: Text, i: nat, j: nat)
    requires Encodable(t) && i <= j <= |t|
    ensures Encodable(t[i..j])
  {
    assert forall k | 0 <= k < j - i :: t[i..j][k] == t[i + k];
  }

  lemma {:induction false} WordsEncodable(t: Text)
    requires Encodable(t)
    ensures AllEncodable(Words(t))
  {
    hide IsSpace;
    if t != [] {
      SliceEncodable(t, 1, |t|);
      WordsEncodable(t[1..]);
      assert t[0].Ch? ==> !IsHighSurrogate(t[0].code) && !IsLowSurrogate(t[0].code);
    }
  }

  lemma {:induction false} JoinEncodable(sep: Text, parts: seq<Text>)
    requires Encodable(sep) && AllEncodable(parts)
    ensures Encodable(Join(sep, parts))
  {
    if |parts| > 1 { JoinEncodable(sep, parts[1..]); }
  }

  lemma KeptPieceEncodable(piece: Text)
    requires Encodable(piece)
    ensures AllEncodable(KeptPiece(piece))
  {
    hide Strip, Words, Join, Encodable;
    WordsEncodable(piece);
    assert Encodable([SPACE]) by { SpaceEncodable(); }
    JoinEncodable([SPACE], Words(piece));
    var n := Normalize(piece);
    var i := StripIsSlice(n);
    SliceEncodable(n, i, i + |Strip(n)|);
    SliceEncodable(Strip(n), 0, |Take(Strip(n), MAX_SEGMENT)|);
  }

  lemma SpaceEncodable()
    ensures Encodable([SPACE]) && Encodable([Ch(10)])
  {
  }

  lemma {:induction false} KeptEncodable(pieces: seq<Text>)
    requires AllEncodable(pieces)
    ensures AllEncodable(Kept(pieces))
  {
    hide Encodable, KeptPiece;
    if pieces != [] {
      KeptPieceEncodable(pieces[0]);
      KeptEncodable(pieces[1..]);
    }
  }

  lemma {:induction false} PiecesEncodable(s: Text, start: nat, pos: nat)
    requires Encodable(s) && start <= pos <= |s|
    ensures AllEncodable(SplitFrom(s, start, pos).pieces)
    decreases |s| - pos
  {
    hide Encodable, SeparatorEnd;
    if pos == |s| {
      SliceEncodable(s, start, |s|);
      assert s[start..] == s[start..|s|];
    } else if SeparatorEnd(s, pos) == pos {
      PiecesEncodable(s, start, pos + 1);
    } else {
      SliceEncodable(s, start, pos);
      PiecesEncodable(s, SeparatorEnd(s, pos), SeparatorEnd(s, pos));
    }
  }

  /** The excerpt of content that can be encoded can be encoded. */
  lemma ExcerptEncodable(priorHashes: seq<Text>, content: Text)
    requires Encodable(content)
    ensures Encodable(ChangedExcerpt(priorHashes, content))
  {
    hide Encodable, SplitFrom, Kept, Join, NoSeparableSegment, NewSegments, Sha256Hex;
    PiecesEncodable(content, 0, 0);
    KeptEncodable(Split(content).pieces);
    var segments := ChangedSegments(priorHashes, content);
    NewSegmentsAreSegments(ContentSegments(content), priorHashes);
    if segments == [] {
      NoticeEncodable();
    } else {
      assert AllEncodable(segments);
      SpaceEncodable();
      JoinEncodable([Ch(10)], segments);
      var joined := Join([Ch(10)], segments);
      SliceEncodable(joined, 0, |Take(joined, MAX_EXCERPT)|);
    }
  }

  lemma NoticeEncodable()
    ensures Encodable(NoSeparableSegment())
  {
    LitEncodable("No newly separable public-text segment was available; review the cited source revision.");
  }
}
