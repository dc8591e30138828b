/**
 UTC instants, `datetime.isoformat()` with a `Z` suffix, and its inverse.

 An instant counts microseconds from 0001-01-01T00:00:00Z; MAX_INSTANT is the end of
 year 9999, where Python's `datetime` overflows.
 */
module Timestamps {
  import opened Wrappers
  import opened Texts

  const SECOND: int := 1_000_000

  /** 3652059 days of 86400 seconds. */
  const MAX_INSTANT: int := 315_537_897_600_000_000

  type Instant = t: int | 0 <= t < MAX_INSTANT

  // ---------------------------------------------------------------- the civil calendar

  predicate IsLeap(y: int) { y % 4 == 0 && (y % 100 != 0 || y % 400 == 0) }

  function DaysBeforeYear(y: int): int {
    var p := y - 1;
    365 * p + p / 4 - p / 100 + p / 400
  }

  function DaysInMonth(y: int, m: int): int {
    if m == 2 then (if IsLeap(y) then 29 else 28)
    else if m == 4 || m == 6 || m == 9 || m == 11 then 30
    else 31
  }

  function DaysBeforeMonth(y: int, m: int): int
    requires 1 <= m <= 13
  {
    if m == 1 then 0 else DaysBeforeMonth(y, m - 1) + DaysInMonth(y, m - 1)
  }

  lemma QuotientSteps(y: int)
    ensures y / 4 == (y - 1) / 4 + (if y % 4 == 0 then 1 else 0)
    ensures y / 100 == (y - 1) / 100 + (if y % 100 == 0 then 1 else 0)
    ensures y / 400 == (y - 1) / 400 + (if y % 400 == 0 then 1 else 0)
  {
  }

  lemma YearSteps(y: int)
    ensures DaysBeforeYear(y + 1) == DaysBeforeYear(y) + (if IsLeap(y) then 366 else 365)
  {
    QuotientSteps(y);
    assert y % 400 == 0 ==> y % 100 == 0;
    assert y % 100 == 0 ==> y % 4 == 0;
  }

  lemma MonthSteps(y: int)
    ensures DaysBeforeMonth(y, 13) == (if IsLeap(y) then 366 else 365)
  {
    assert DaysBeforeMonth(y, 2) == 31;
    assert DaysBeforeMonth(y, 4) == 62 + DaysInMonth(y, 2);
    assert DaysBeforeMonth(y, 6) == DaysBeforeMonth(y, 4) + 61;
    assert DaysBeforeMonth(y, 8) == DaysBeforeMonth(y, 6) + 61;
    assert DaysBeforeMonth(y, 10) == DaysBeforeMonth(y, 8) + 61;
    assert DaysBeforeMonth(y, 12) == DaysBeforeMonth(y, 10) + 61;
  }

  lemma YearLength(y: int)
    ensures DaysBeforeYear(y + 1) == DaysBeforeYear(y) + (if IsLeap(y) then 366 else 365)
    ensures DaysBeforeMonth(y, 13) == (if IsLeap(y) then 366 else 365)
  {
    YearSteps(y);
    MonthSteps(y);
  }

  datatype Civil = Civil(year: int, month: int, day: int)

  predicate ValidCivil(c: Civil) {
    1 <= c.year <= 9999 && 1 <= c.month <= 12 && 1 <= c.day <= DaysInMonth(c.year, c.month)
  }

  /** Days from 0001-01-01 to the civil date. */
  function Ordinal(c: Civil): int
    requires 1 <= c.month <= 12
  {
    DaysBeforeYear(c.year) + DaysBeforeMonth(c.year, c.month) + c.day - 1
  }

  function YearFrom(n: int, y: int): (r: int)
    requires DaysBeforeYear(y) <= n
    ensures y <= r && DaysBeforeYear(r) <= n < DaysBeforeYear(r + 1)
    decreases n - DaysBeforeYear(y)
  {
    YearLength(y);
    if n < DaysBeforeYear(y + 1) then y else YearFrom(n, y + 1)
  }

  function MonthFrom(y: int, n: int, m: int): (r: int)
    requires 1 <= m <= 12
    requires DaysBeforeMonth(y, m) <= n < DaysBeforeMonth(y, 13)
    ensures m <= r <= 12 && DaysBeforeMonth(y, r) <= n < DaysBeforeMonth(y, r + 1)
    decreases 12 - m
  {
    if n < DaysBeforeMonth(y, m + 1) then m else MonthFrom(y, n, m + 1)
  }

  lemma {:induction false} YearsAscend(y: int, z: int)
    requires y <= z
    ensures DaysBeforeYear(y) <= DaysBeforeYear(z)
    decreases z - y
  {
    if y < z {
      YearLength(y);
      YearsAscend(y + 1, z);
    }
  }

  /** The civil date of a day number is the one whose ordinal is that number. */
  function CivilOf(n: int): (c: Civil)
    requires 0 <= n < DaysBeforeYear(10_000)
    ensures ValidCivil(c) && Ordinal(c) == n
  {
    var y := YearFrom(n, 1);
    YearLength(y);
    assert y <= 9999 by {
      if y >= 10_000 { YearsAscend(10_000, y); }
    }
    var m := MonthFrom(y, n - DaysBeforeYear(y), 1);
    Civil(y, m, n - DaysBeforeYear(y) - DaysBeforeMonth(y, m) + 1)
  }

  lemma {:induction false} MonthsAscend(y: int, m: int, k: int)
    requires 1 <= m <= k <= 13
    ensures DaysBeforeMonth(y, m) <= DaysBeforeMonth(y, k)
    decreases k - m
  {
    if m < k { MonthsAscend(y, m, k - 1); }
  }

  lemma OrdinalBound(c: Civil)
    requires ValidCivil(c)
    ensures 0 <= Ordinal(c) < DaysBeforeYear(10_000)
  {
    YearsAscend(1, c.year);
    YearsAscend(c.year + 1, 10_000);
    YearLength(c.year);
    MonthsAscend(c.year, 1, c.month);
    MonthsAscend(c.year, c.month + 1, 13);
  }

  // ---------------------------------------------------------------- decimal fields

  function Digit(d: int): Symbol
    requires 0 <= d < 10
  {
    Ch('0' as int + d)
  }

  predicate IsDigit(x: Symbol) { x.Ch? && '0' as int <= x.code <= '9' as int }

  function Pow10(w: nat): (p: nat)
    ensures p >= 1
  {
    if w == 0 then 1 else 10 * Pow10(w - 1)
  }

  /** The last w decimal digits of n, zero padded. */
  function Pad(n: nat, w: nat): (t: Text)
    ensures |t| == w
    ensures forall i | 0 <= i < w :: IsDigit(t[i])
  {
    if w == 0 then [] else Pad(n / 10, w - 1) + [Digit(n % 10)]
  }

  function ReadDigits(t: Text): Option<nat> {
    if t == [] then Some(0)
    else if !IsDigit(t[|t| - 1]) then None
    else
      match ReadDigits(t[..|t| - 1])
      case None => None
      case Some(n) => Some(10 * n + (t[|t| - 1].code - '0' as int))
  }

  lemma {:induction false} ReadPad(n: nat, w: nat)
    requires n < Pow10(w)
    ensures ReadDigits(Pad(n, w)) == Some(n)
  {
    if w > 0 {
      var t := Pad(n, w);
      assert t[..w - 1] == Pad(n / 10, w - 1);
      ReadPad(n / 10, w - 1);
    }
  }

  lemma FieldRead(n: nat, w: nat)
    requires (w == 2 && n < 100) || (w == 4 && n < 10_000) || (w == 6 && n < 1_000_000)
    ensures ReadDigits(Pad(n, w)) == Some(n)
  {
    assert Pow10(2) == 100;
    assert Pow10(4) == 100 * Pow10(2);
    assert Pow10(6) == 100 * Pow10(4);
    ReadPad(n, w);
  }

  // ---------------------------------------------------------------- printing

  datatype Fields = Fields(date: Civil, hour: int, minute: int, second: int, micro: int)

  predicate ValidFields(f: Fields) {
    ValidCivil(f.date) && 0 <= f.hour < 24 && 0 <= f.minute < 60 && 0 <= f.second < 60 && 0 <= f.micro < 1_000_000
  }

  function InstantOf(f: Fields): Instant
    requires ValidFields(f)
  {
    OrdinalBound(f.date);
    var seconds := Ordinal(f.date) * 86_400 + f.hour * 3_600 + f.minute * 60 + f.second;
    seconds * 1_000_000 + f.micro
  }

  lemma ClockSplit(rest: int)
    requires 0 <= rest < 86_400
    ensures 0 <= rest / 3_600 < 24 && 0 <= rest % 3_600 / 60 < 60 && 0 <= rest % 60 < 60
    ensures rest / 3_600 * 3_600 + rest % 3_600 / 60 * 60 + rest % 60 == rest
  {
    var m := rest % 3_600;
    assert rest == 3_600 * (rest / 3_600) + m;
    assert m == 60 * (m / 60) + m % 60;
    assert m % 60 == rest % 60;
  }

  function FieldsOf(t: Instant): (f: Fields)
    ensures ValidFields(f) && InstantOf(f) == t
  {
    var seconds := t / 1_000_000;
    var days := seconds / 86_400;
    var rest := seconds % 86_400;
    ClockSplit(rest);
    DayInRange(t);
    Fields(CivilOf(days), rest / 3_600, rest % 3_600 / 60, rest % 60, t % 1_000_000)
  }

  lemma DayInRange(t: Instant)
    ensures 0 <= t / 1_000_000 / 86_400 < DaysBeforeYear(10_000)
  {
  }

  function DatePart(c: Civil): (t: Text)
    requires ValidCivil(c)
    ensures |t| == 10
  {
    Pad(c.year, 4) + [Ch('-' as int)] + Pad(c.month, 2) + [Ch('-' as int)] + Pad(c.day, 2)
  }

  function TimePart(f: Fields): (t: Text)
    requires ValidFields(f)
    ensures |t| == 8
  {
    Pad(f.hour, 2) + [Ch(':' as int)] + Pad(f.minute, 2) + [Ch(':' as int)] + Pad(f.second, 2)
  }

  /** `isoformat()` of a UTC datetime without its offset. */
  function Body(t: Instant): (r: Text)
    ensures |r| == 19 || |r| == 26
  {
    var f := FieldsOf(t);
    DatePart(f.date) + [Ch('T' as int)] + TimePart(f)
    + (if f.micro == 0 then [] else [Ch('.' as int)] + Pad(f.micro, 6))
  }

  /** `value.astimezone(utc).isoformat().replace("+00:00", "Z")` */
  function Format(t: Instant): Text {
    Body(t) + [Ch('Z' as int)]
  }

  // ---------------------------------------------------------------- parsing

  function UtcOffset(): Text { Lit("+00:00") }

  /** `value.replace("Z", "+00:00")` */
  function ReplaceZ(v: Text): Text {
    if v == [] then []
    else (if v[0] == Ch('Z' as int) then UtcOffset() else [v[0]]) + ReplaceZ(v[1..])
  }

  function ReadDate(t: Text): Option<Civil>
    requires |t| == 10
  {
    match (ReadDigits(t[..4]), ReadDigits(t[5..7]), ReadDigits(t[8..]))
    case (Some(y), Some(m), Some(d)) =>
      if t[4] == t[7] == Ch('-' as int) && ValidCivil(Civil(y, m, d)) then Some(Civil(y, m, d)) else None
    case (_, _, _) => None
  }

  function ReadTime(c: Civil, t: Text, micro: int): (r: Option<Fields>)
    requires |t| == 8
    requires ValidCivil(c) && 0 <= micro < 1_000_000
    ensures r.Some? ==> ValidFields(r.value)
  {
    match (ReadDigits(t[..2]), ReadDigits(t[3..5]), ReadDigits(t[6..]))
    case (Some(h), Some(m), Some(s)) =>
      if t[2] == t[5] == Ch(':' as int) && h < 24 && m < 60 && s < 60
      then Some(Fields(c, h, m, s, micro)) else None
    case (_, _, _) => None
  }

  function ReadMicro(t: Text): (r: Option<nat>)
    ensures r.Some? ==> r.value < 1_000_000
  {
    if t == [] then Some(0)
    else if |t| == 7 && t[0] == Ch('.' as int) then
      match ReadDigits(t[1..])
      case Some(n) => if n < 1_000_000 then Some(n) else None
      case None => None
    else None
  }

  /** The texts `YYYY-MM-DDTHH:MM:SS[.ffffff]+00:00`, read exactly. */
  function ReadUtc(v: Text): Option<Instant> {
    if (|v| != 25 && |v| != 32) || v[|v| - 6..] != UtcOffset() || v[10] != Ch('T' as int) then None
    else
      match (ReadDate(v[..10]), ReadMicro(v[19..|v| - 6]))
      case (Some(c), Some(micro)) =>
        (match ReadTime(c, v[11..19], micro)
         case Some(f) => Some(InstantOf(f))
         case None => None)
      case (_, _) => None
  }

  /** What `datetime.fromisoformat` answers on every other text: any partial function. */
  type Lenient = Text -> Option<Instant>

  /** `datetime.fromisoformat(value.replace("Z", "+00:00")).astimezone(utc)`; None is any exception. */
  function Parse(lenient: Lenient, value: Text): Option<Instant> {
    var v := ReplaceZ(value);
    var exact := ReadUtc(v);
    if exact.Some? then exact else lenient(v)
  }

  /** `_normalize_timestamp` and `_require_timestamp`: reparse and print in UTC. */
  function NormalizeTimestamp(lenient: Lenient, value: Text): Option<Text> {
    match Parse(lenient, value)
    case Some(t) => Some(Format(t))
    case None => None
  }

  // ---------------------------------------------------------------- round trips

  lemma {:induction false} ReplaceZAbsent(v: Text, tail: Text)
    requires Without(Ch('Z' as int), v)
    ensures ReplaceZ(v + tail) == v + ReplaceZ(tail)
  {
    if v == [] {
      assert v + tail == tail;
    } else {
      assert (v + tail)[1..] == v[1..] + tail;
      assert Without(Ch('Z' as int), v[1..]) by {
        forall i | 0 <= i < |v[1..]| ensures v[1..][i] != Ch('Z' as int) { assert v[1..][i] == v[i + 1]; }
      }
      ReplaceZAbsent(v[1..], tail);
    }
  }

  lemma DatePartRead(c: Civil)
    requires ValidCivil(c)
    ensures ReadDate(DatePart(c)) == Some(c)
  {
    FieldRead(c.year, 4);
    FieldRead(c.month, 2);
    FieldRead(c.day, 2);
    var t := DatePart(c);
    assert t[..4] == Pad(c.year, 4) && t[5..7] == Pad(c.month, 2) && t[8..] == Pad(c.day, 2);
  }

  lemma TimePartRead(f: Fields)
    requires ValidFields(f)
    ensures ReadTime(f.date, TimePart(f), f.micro) == Some(f)
  {
    FieldRead(f.hour, 2);
    FieldRead(f.minute, 2);
    FieldRead(f.second, 2);
    var t := TimePart(f);
    assert t[..2] == Pad(f.hour, 2) && t[3..5] == Pad(f.minute, 2) && t[6..] == Pad(f.second, 2);
  }

  lemma BodyRead(t: Instant)
    ensures ReadUtc(Body(t) + UtcOffset()) == Some(t)
  {
    hide ReadDate, ReadTime, DatePart, TimePart, FieldsOf, InstantOf;
    var f := FieldsOf(t);
    var micro := if f.micro == 0 then [] else [Ch('.' as int)] + Pad(f.micro, 6);
    var v := Body(t) + UtcOffset();
    DatePartRead(f.date);
    TimePartRead(f);
    FieldRead(f.micro, 6);
    assert micro != [] ==> micro[1..] == Pad(f.micro, 6);
    assert v[|v| - 6..] == UtcOffset();
    assert v[..10] == DatePart(f.date);
    assert v[11..19] == TimePart(f);
    assert v[19..|v| - 6] == micro;
  }

  lemma BodyWithoutZ(t: Instant)
    ensures Without(Ch('Z' as int), Body(t))
  {
  }

  /** Parsing a formatted instant gives that instant, to the microsecond. */
  lemma ParseFormat(lenient: Lenient, t: Instant)
    ensures Parse(lenient, Format(t)) == Some(t)
  {
    hide Body, ReadUtc;
    BodyWithoutZ(t);
    ReplaceZAbsent(Body(t), [Ch('Z' as int)]);
    BodyRead(t);
    assert [Ch('Z' as int)][1..] == [];
    assert ReplaceZ(Format(t)) == Body(t) + UtcOffset();
  }

  ghost predicate IsCanonicalTimestamp(value: Text) {
    exists t: Instant :: value == Format(t)
  }

  lemma FormatIsCanonical(t: Instant)
    ensures IsCanonicalTimestamp(Format(t))
  {
  }

  lemma NormalizeFormat(lenient: Lenient, t: Instant)
    ensures NormalizeTimestamp(lenient, Format(t)) == Some(Format(t))
  {
    hide Format, Parse;
    ParseFormat(lenient, t);
  }

  lemma NormalizedIsCanonical(lenient: Lenient, value: Text)
    ensures match NormalizeTimestamp(lenient, value)
            case Some(once) => IsCanonicalTimestamp(once)
            case None => true
  {
    hide Parse, Format, IsCanonicalTimestamp;
    match Parse(lenient, value)
    case Some(t) => FormatIsCanonical(t);
    case None =>
  }

  /** Normalizing fixes exactly the texts some instant prints as. */
  lemma NormalizeFixesCanonical(lenient: Lenient, value: Text)
    ensures NormalizeTimestamp(lenient, value) == Some(value) <==> IsCanonicalTimestamp(value)
  {
    hide Format, NormalizeTimestamp;
    NormalizedIsCanonical(lenient, value);
    if IsCanonicalTimestamp(value) {
      var t: Instant :| value == Format(t);
      NormalizeFormat(lenient, t);
    }
  }

  /** A normalized timestamp is canonical, so normalizing twice changes nothing. */
  lemma NormalizeTwice(lenient: Lenient, value: Text)
    ensures match NormalizeTimestamp(lenient, value)
            case Some(once) => IsCanonicalTimestamp(once) && NormalizeTimestamp(lenient, once) == Some(once)
            case None => true
  {
    hide *;
    NormalizedIsCanonical(lenient, value);
    match NormalizeTimestamp(lenient, value)
    case Some(once) => NormalizeFixesCanonical(lenient, once);
    case None =>
  }
}
