/**
 What the timestamps mean by the Gregorian calendar, stated with the month lengths and the leap rule
 written out: which midnights are read, which date follows which, and two anchors.
 */
module Calendar {
  import opened Wrappers
  import opened Texts
  import opened Timestamps

  const MONTH_LENGTHS: seq<int> := [31, 28, 31, 30, 31, 30, 31, 31, 30, 31, 30, 31]

  /** The length of a month of the Gregorian calendar. */
  function GregorianLength(y: int, m: int): int
    requires 1 <= m <= 12
  {
    if m == 2 && (y % 400 == 0 || (y % 4 == 0 && y % 100 != 0)) then 29 else MONTH_LENGTHS[m - 1]
  }

  lemma LengthsAgree(y: int, m: int)
    requires 1 <= m <= 12
    ensures DaysInMonth(y, m) == GregorianLength(y, m)
  {
    hide IsLeap;
    LeapRule(y);
    assert MONTH_LENGTHS[3] == MONTH_LENGTHS[5] == MONTH_LENGTHS[8] == MONTH_LENGTHS[10] == 30;
    assert MONTH_LENGTHS[0] == MONTH_LENGTHS[2] == MONTH_LENGTHS[4] == MONTH_LENGTHS[6] == 31;
    assert MONTH_LENGTHS[7] == MONTH_LENGTHS[9] == MONTH_LENGTHS[11] == 31 && MONTH_LENGTHS[1] == 28;
  }

  lemma FourDivides(y: int, k: int)
    requires y == 400 * k
    ensures y % 4 == 0
  {
    assert y == 4 * (100 * k);
  }

  lemma LeapRule(y: int)
    ensures IsLeap(y) <==> y % 400 == 0 || (y % 4 == 0 && y % 100 != 0)
  {
    if y % 400 == 0 { FourDivides(y, y / 400); }
  }

  // ---------------------------------------------------------------- fields determine instants

  lemma CivilOrder(c: Civil, d: Civil)
    requires ValidCivil(c) && ValidCivil(d)
    requires c.year < d.year || (c.year == d.year && c.month < d.month)
    ensures Ordinal(c) < Ordinal(d)
  {
    YearLength(c.year);
    if c.year < d.year {
      YearsAscend(c.year + 1, d.year);
      MonthsAscend(c.year, c.month + 1, 13);
      MonthsAscend(d.year, 1, d.month);
    } else {
      MonthsAscend(c.year, c.month + 1, d.month);
    }
  }

  lemma OrdinalInjective(c: Civil, d: Civil)
    requires ValidCivil(c) && ValidCivil(d) && Ordinal(c) == Ordinal(d)
    ensures c == d
  {
    if c.year < d.year || (c.year == d.year && c.month < d.month) { CivilOrder(c, d); }
    else if d.year < c.year || (c.year == d.year && d.month < c.month) { CivilOrder(d, c); }
  }

  lemma FieldsInjective(f: Fields, g: Fields)
    requires ValidFields(f) && ValidFields(g) && InstantOf(f) == InstantOf(g)
    ensures f == g
  {
    hide Ordinal;
    var a, b := f.hour * 3_600 + f.minute * 60 + f.second, g.hour * 3_600 + g.minute * 60 + g.second;
    var m, n := Ordinal(f.date) * 86_400 + a, Ordinal(g.date) * 86_400 + b;
    assert m * 1_000_000 + f.micro == n * 1_000_000 + g.micro;
    assert m == n && f.micro == g.micro;
    assert Ordinal(f.date) == Ordinal(g.date) && a == b;
    OrdinalInjective(f.date, g.date);
  }

  lemma FieldsOfInstant(f: Fields)
    requires ValidFields(f)
    ensures FieldsOf(InstantOf(f)) == f
  {
    hide InstantOf, FieldsOf, ValidFields;
    FieldsInjective(FieldsOf(InstantOf(f)), f);
  }

  /** An instant prints its fields, each at its place. */
  lemma PrintedFields(f: Fields)
    requires ValidFields(f)
    ensures Format(InstantOf(f)) == DatePart(f.date) + [Ch('T' as int)] + TimePart(f)
              + (if f.micro == 0 then [] else [Ch('.' as int)] + Pad(f.micro, 6)) + [Ch('Z' as int)]
  {
    hide InstantOf, FieldsOf, DatePart, TimePart;
    FieldsOfInstant(f);
  }

  // ---------------------------------------------------------------- which texts are read exactly

  lemma {:induction false} DigitsPad(t: Text)
    ensures match ReadDigits(t)
            case Some(n) => Pad(n, |t|) == t
            case None => true
  {
    if t != [] {
      var last := |t| - 1;
      DigitsPad(t[..last]);
      if ReadDigits(t).Some? {
        var n := ReadDigits(t[..last]).value;
        assert ReadDigits(t).value / 10 == n && ReadDigits(t).value % 10 == t[last].code - '0' as int;
        assert t == t[..last] + [t[last]];
      }
    }
  }

  lemma DateReadPrints(t: Text)
    requires |t| == 10 && ReadDate(t).Some?
    ensures ValidCivil(ReadDate(t).value) && DatePart(ReadDate(t).value) == t
  {
    hide ValidCivil, Pad, ReadDigits;
    DigitsPad(t[..4]);
    DigitsPad(t[5..7]);
    DigitsPad(t[8..]);
    assert t == t[..4] + [t[4]] + t[5..7] + [t[7]] + t[8..];
  }

  lemma TimeReadPrints(c: Civil, t: Text, micro: int)
    requires |t| == 8 && ValidCivil(c) && 0 <= micro < 1_000_000 && ReadTime(c, t, micro).Some?
    ensures var f := ReadTime(c, t, micro).value; TimePart(f) == t && f.date == c && f.micro == micro
  {
    hide ValidCivil, Pad, ReadDigits;
    DigitsPad(t[..2]);
    DigitsPad(t[3..5]);
    DigitsPad(t[6..]);
    assert t == t[..2] + [t[2]] + t[3..5] + [t[5]] + t[6..];
  }

  lemma MicroReadPrints(t: Text)
    ensures match ReadMicro(t)
            case Some(n) => t == (if n == 0 then t else [Ch('.' as int)] + Pad(n, 6))
                            && (n == 0 ==> t == [] || t == Lit(".000000"))
            case None => true
  {
    hide Pad, ReadDigits;
    if ReadMicro(t).Some? && t != [] {
      DigitsPad(t[1..]);
      assert t == [t[0]] + t[1..];
      ZeroMicro();
    }
  }

  lemma ZeroMicro()
    ensures [Ch('.' as int)] + Pad(0, 6) == Lit(".000000")
  {
    assert Pad(0, 6) == Pad(0, 5) + [Digit(0)] && Pad(0, 5) == Pad(0, 4) + [Digit(0)];
    assert Pad(0, 4) == Pad(0, 3) + [Digit(0)] && Pad(0, 3) == Pad(0, 2) + [Digit(0)];
    assert Pad(0, 2) == Pad(0, 1) + [Digit(0)] && Pad(0, 1) == [Digit(0)];
  }

  /** The texts the exact reader takes for an instant. */
  predicate Spelled(v: Text, t: Instant) {
    v == Body(t) + Lit("+00:00") || (t % 1_000_000 == 0 && v == Body(t) + Lit(".000000") + Lit("+00:00"))
  }

  lemma ReadIsSpelled(v: Text)
    ensures match ReadUtc(v) case Some(t) => Spelled(v, t) case None => true
  {
    hide ReadDate, ReadTime, ReadMicro, DatePart, TimePart, FieldsOf, InstantOf, Lit;
    if ReadUtc(v).Some? {
      var c, micro := ReadDate(v[..10]).value, ReadMicro(v[19..|v| - 6]).value;
      DateReadPrints(v[..10]);
      MicroReadPrints(v[19..|v| - 6]);
      TimeReadPrints(c, v[11..19], micro);
      var f := ReadTime(c, v[11..19], micro).value;
      FieldsOfInstant(f);
      MicroOf(f);
      assert v == v[..10] + [v[10]] + v[11..19] + v[19..|v| - 6] + v[|v| - 6..];
    }
  }

  lemma MicroOf(f: Fields)
    requires ValidFields(f)
    ensures InstantOf(f) % 1_000_000 == f.micro
  {
    hide Ordinal;
  }

  lemma SpelledIsRead(v: Text, t: Instant)
    requires Spelled(v, t)
    ensures ReadUtc(v) == Some(t)
  {
    hide ReadDate, ReadTime, DatePart, TimePart, FieldsOf, InstantOf, Body;
    if v == Body(t) + Lit("+00:00") { BodyRead(t); } else { ZeroMicroRead(v, t); }
  }

  lemma ZeroMicroRead(v: Text, t: Instant)
    requires t % 1_000_000 == 0 && v == Body(t) + Lit(".000000") + Lit("+00:00")
    ensures ReadUtc(v) == Some(t)
  {
    hide ReadDate, ReadTime, DatePart, TimePart, FieldsOf, InstantOf;
    var f := FieldsOf(t);
    MicroOf(f);
    DatePartRead(f.date);
    TimePartRead(f);
    FieldRead(0, 6);
    ZeroMicro();
    assert Lit(".000000")[1..] == Pad(0, 6) by { assert ([Ch('.' as int)] + Pad(0, 6))[1..] == Pad(0, 6); }
    assert v[|v| - 6..] == Lit("+00:00") && v[..10] == DatePart(f.date) && v[11..19] == TimePart(f);
    assert v[19..|v| - 6] == Lit(".000000");
  }

  /**
   The exact reader takes a text for an instant exactly when the text is that instant printed with the
   offset "+00:00", or with ".000000" before the offset when the instant is a whole second.
   */
  lemma ReadsExactly(v: Text, t: Instant)
    ensures ReadUtc(v) == Some(t) <==> Spelled(v, t)
  {
    hide ReadUtc, Spelled;
    ReadIsSpelled(v);
    if Spelled(v, t) { SpelledIsRead(v, t); }
  }

  // ---------------------------------------------------------------- which midnights are read

  function Midnight(y: int, m: int, d: int): Text
    requires 0 <= y && 0 <= m && 0 <= d
  {
    Pad(y, 4) + Lit("-") + Pad(m, 2) + Lit("-") + Pad(d, 2) + Lit("T00:00:00Z")
  }

  /** The exact reader accepts this text. */
  predicate Reads(v: Text) { ReadUtc(ReplaceZ(v)).Some? }

  lemma MidnightBody(y: int, m: int, d: int) returns (body: Text)
    requires 0 <= y && 0 <= m && 0 <= d
    ensures |body| == 19 && ReplaceZ(Midnight(y, m, d)) == body + UtcOffset()
    ensures body[..4] == Pad(y, 4) && body[5..7] == Pad(m, 2) && body[8..10] == Pad(d, 2)
    ensures body[4] == body[7] == Ch('-' as int) && body[10] == Ch('T' as int)
    ensures body[11..] == Pad(0, 2) + [Ch(':' as int)] + Pad(0, 2) + [Ch(':' as int)] + Pad(0, 2)
  {
    hide Pad, ReplaceZ;
    body := Midnight(y, m, d)[..19];
    var zero := ZeroPadded();
    OneSymbols();
    var t := Midnight(y, m, d);
    var text := Pad(y, 4) + [Ch('-' as int)] + Pad(m, 2) + [Ch('-' as int)] + Pad(d, 2);
    assert t == text + Lit("T00:00:00Z") && |text| == 10;
    assert text[..4] == Pad(y, 4) && text[5..7] == Pad(m, 2) && text[8..] == Pad(d, 2);
    assert body[..4] == text[..4] && body[5..7] == text[5..7] && body[8..10] == text[8..];
    assert body[4] == text[4] && body[7] == text[7];
    assert t == body + [Ch('Z' as int)];
    assert Without(Ch('Z' as int), body) by { MidnightWithoutZ(y, m, d); }
    ReplaceZAbsent(body, [Ch('Z' as int)]);
    LoneZ();
    assert Lit("T00:00:00Z")[..9] == Lit("T00:00:00");
    assert body[11..] == Lit("00:00:00");
    assert Lit("00:00:00") == zero + [Ch(':' as int)] + zero + [Ch(':' as int)] + zero;
  }

  lemma LoneZ()
    ensures ReplaceZ([Ch('Z' as int)]) == UtcOffset()
  {
    assert [Ch('Z' as int)][1..] == [];
  }

  lemma ZeroPadded() returns (zero: Text)
    ensures zero == Pad(0, 2) && zero == [Ch('0' as int), Ch('0' as int)]
  {
    zero := Pad(0, 2);
    assert Pad(0, 1) == [] + [Digit(0)] by { assert Pad(0, 0) == []; }
  }

  lemma MidnightWithoutZ(y: int, m: int, d: int)
    requires 0 <= y && 0 <= m && 0 <= d
    ensures Without(Ch('Z' as int), Midnight(y, m, d)[..19])
  {
    var t := Midnight(y, m, d);
    forall i | 0 <= i < 19 ensures t[i] != Ch('Z' as int) {
      if i < 4 { assert t[i] == Pad(y, 4)[i]; }
      else if 5 <= i < 7 { assert t[i] == Pad(m, 2)[i - 5]; }
      else if 8 <= i < 10 { assert t[i] == Pad(d, 2)[i - 8]; }
    }
  }

  /** A midnight is read exactly when its month and day are in the module's calendar. */
  lemma MidnightReads(y: int, m: int, d: int)
    requires 0 <= y < 10_000 && 0 <= m < 100 && 0 <= d < 100
    ensures Reads(Midnight(y, m, d)) <==> ValidCivil(Civil(y, m, d))
  {
    hide Pad, ReplaceZ, Midnight, ValidCivil, InstantOf;
    var body := MidnightBody(y, m, d);
    var v := body + UtcOffset();
    FieldRead(y, 4);
    FieldRead(m, 2);
    FieldRead(d, 2);
    FieldRead(0, 2);
    assert v[|v| - 6..] == UtcOffset() && v[10] == body[10];
    var date, time := v[..10], v[11..19];
    assert date == body[..10] && time == body[11..];
    assert date[..4] == body[..4] && date[5..7] == body[5..7] && date[8..] == body[8..10];
    assert date[4] == body[4] && date[7] == body[7];
    assert time[..2] == Pad(0, 2) && time[3..5] == Pad(0, 2) && time[6..] == Pad(0, 2);
    assert time[2] == time[5] == Ch(':' as int);
    assert v[19..|v| - 6] == [];
    assert ReadMicro([]) == Some(0);
    assert ReadDate(date).Some? <==> ValidCivil(Civil(y, m, d));
    if ValidCivil(Civil(y, m, d)) {
      assert ReadTime(Civil(y, m, d), time, 0).Some?;
    }
  }

  /** In every year the days that are read are those of the Gregorian months, and there are twelve. */
  lemma MidnightsRead(y: int, d: int)
    requires 1 <= y <= 9999 && 0 <= d < 100
    ensures Reads(Midnight(y, 1, d)) <==> 1 <= d <= 31
    ensures Reads(Midnight(y, 2, d)) <==> 1 <= d <= (if y % 4 == 0 && (y % 100 != 0 || y % 400 == 0) then 29 else 28)
    ensures Reads(Midnight(y, 3, d)) <==> 1 <= d <= 31
    ensures Reads(Midnight(y, 4, d)) <==> 1 <= d <= 30
    ensures Reads(Midnight(y, 5, d)) <==> 1 <= d <= 31
    ensures Reads(Midnight(y, 6, d)) <==> 1 <= d <= 30
    ensures Reads(Midnight(y, 7, d)) <==> 1 <= d <= 31
    ensures Reads(Midnight(y, 8, d)) <==> 1 <= d <= 31
    ensures Reads(Midnight(y, 9, d)) <==> 1 <= d <= 30
    ensures Reads(Midnight(y, 10, d)) <==> 1 <= d <= 31
    ensures Reads(Midnight(y, 11, d)) <==> 1 <= d <= 30
    ensures Reads(Midnight(y, 12, d)) <==> 1 <= d <= 31
    ensures !Reads(Midnight(0, 1, d)) && !Reads(Midnight(y, 0, d))
    ensures forall m | 13 <= m < 100 :: !Reads(Midnight(y, m, d))
  {
    hide Reads, Midnight;
    forall m | 0 <= m < 100 ensures Reads(Midnight(y, m, d)) <==> ValidCivil(Civil(y, m, d)) { MidnightReads(y, m, d); }
    MidnightReads(0, 1, d);
  }

  // ---------------------------------------------------------------- which date follows which

  function DateText(y: int, m: int, d: int): Text
    requires 0 <= y && 0 <= m && 0 <= d
  {
    Pad(y, 4) + Lit("-") + Pad(m, 2) + Lit("-") + Pad(d, 2)
  }

  const DAY: int := 86_400_000_000

  datatype Follows = NextDay | NextMonth | NextYear

  function Successor(c: Civil): Civil
    requires 1 <= c.month <= 12
  {
    if c.day < GregorianLength(c.year, c.month) then Civil(c.year, c.month, c.day + 1)
    else if c.month < 12 then Civil(c.year, c.month + 1, 1)
    else Civil(c.year + 1, 1, 1)
  }

  lemma SuccessorOrdinal(c: Civil)
    requires ValidCivil(c) && Ordinal(c) + 1 < DaysBeforeYear(10_000)
    ensures ValidCivil(Successor(c)) && Ordinal(Successor(c)) == Ordinal(c) + 1
  {
    hide GregorianLength, DaysBeforeYear, DaysInMonth;
    LengthsAgree(c.year, c.month);
    YearLength(c.year);
    var s := Successor(c);
    if c.day < GregorianLength(c.year, c.month) {
    } else if c.month < 12 {
      MonthsHaveDays(c.year, c.month + 1);
    } else {
      assert Ordinal(c) + 1 == DaysBeforeYear(c.year + 1);
      MonthsHaveDays(c.year + 1, 1);
      if c.year == 9999 { assert false; }
    }
  }

  lemma MonthsHaveDays(y: int, m: int)
    ensures DaysInMonth(y, m) >= 1
  {
  }

  lemma DateTextIsDatePart(c: Civil)
    requires ValidCivil(c)
    ensures DatePart(c) == DateText(c.year, c.month, c.day)
  {
    hide Pad;
    assert Lit("-") == [Ch('-' as int)];
  }

  /**
   A day later the clock part prints the same and the date prints as the Gregorian successor: the next
   day of the month, the first of the next month after its last day, the first of January after December.
   */
  lemma NextDate(t: Instant) returns (c: Civil)
    requires t + DAY < MAX_INSTANT
    ensures 1 <= c.year && 1 <= c.month <= 12 && 1 <= c.day <= GregorianLength(c.year, c.month)
    ensures Format(t)[..10] == DateText(c.year, c.month, c.day)
    ensures Successor(c).year >= 1 && Successor(c).month >= 1 && Successor(c).day >= 1
    ensures Format(t + DAY)[..10] == DateText(Successor(c).year, Successor(c).month, Successor(c).day)
    ensures Format(t)[10..] == Format(t + DAY)[10..]
  {
    hide DatePart, TimePart, Pad, ValidCivil, Ordinal, GregorianLength, FieldsOf, Format, DateText, Successor;
    var f := FieldsOf(t);
    c := f.date;
    FieldBounds(f);
    LengthsAgree(c.year, c.month);
    OrdinalOf(t, f);
    SuccessorOrdinal(c);
    var g := f.(date := Successor(c));
    OrdinalBound(g.date);
    FieldBounds(g);
    assert InstantOf(g) == t + DAY;
    PrintedFields(f);
    PrintedFields(g);
    assert TimePart(g) == TimePart(f) by { SameClock(f, g); }
    DateTextIsDatePart(c);
    DateTextIsDatePart(g.date);
    var micro := if f.micro == 0 then [] else [Ch('.' as int)] + Pad(f.micro, 6);
    var tail := [Ch('T' as int)] + TimePart(f) + micro + [Ch('Z' as int)];
    assert Format(t) == DatePart(f.date) + tail && Format(t + DAY) == DatePart(g.date) + tail;
  }

  lemma FieldBounds(f: Fields)
    requires ValidFields(f)
    ensures 1 <= f.date.year <= 9999 && 1 <= f.date.month <= 12
    ensures 1 <= f.date.day <= DaysInMonth(f.date.year, f.date.month)
  {
  }

  lemma SameClock(f: Fields, g: Fields)
    requires ValidFields(f) && ValidFields(g) && g == f.(date := g.date)
    ensures TimePart(g) == TimePart(f)
  {
  }

  lemma OrdinalOf(t: Instant, f: Fields)
    requires ValidFields(f) && InstantOf(f) == t && t + DAY < MAX_INSTANT
    ensures 0 <= Ordinal(f.date) && Ordinal(f.date) + 1 < DaysBeforeYear(10_000)
  {
    OrdinalBound(f.date);
    hide Ordinal, ValidCivil;
    var s := f.hour * 3_600 + f.minute * 60 + f.second;
    assert (Ordinal(f.date) * 86_400 + s) * 1_000_000 <= t;
    assert DaysBeforeYear(10_000) == 3_652_059;
  }

  // ---------------------------------------------------------------- clock and anchors

  lemma ClockInstant(f: Fields, day: int)
    requires ValidFields(f) && Ordinal(f.date) == day
    ensures InstantOf(f) == day * DAY + f.hour * 3_600_000_000 + f.minute * 60_000_000 + f.second * 1_000_000 + f.micro
  {
    hide Ordinal, ValidCivil;
  }

  lemma AfterDate(f: Fields)
    requires ValidFields(f)
    ensures Format(InstantOf(f))[10..]
            == Lit("T") + Pad(f.hour, 2) + Lit(":") + Pad(f.minute, 2) + Lit(":") + Pad(f.second, 2)
              + (if f.micro == 0 then [] else Lit(".") + Pad(f.micro, 6)) + Lit("Z")
  {
    hide DatePart, Pad, FieldsOf, Format, InstantOf, ValidCivil;
    PrintedFields(f);
    OneSymbols();
    var tail := [Ch('T' as int)] + TimePart(f) + (if f.micro == 0 then [] else [Ch('.' as int)] + Pad(f.micro, 6))
                + [Ch('Z' as int)];
    assert Format(InstantOf(f)) == DatePart(f.date) + tail;
  }

  /** The instant of a clock time on a day counted from 0001-01-01. */
  function Clock(day: int, h: int, m: int, s: int, u: int): int {
    day * 86_400_000_000 + h * 3_600_000_000 + m * 60_000_000 + s * 1_000_000 + u
  }

  /** Within a day, hours, minutes, seconds and microseconds print at their places. */
  lemma ClockPrints(t: Instant, day: int, h: int, m: int, s: int, u: int)
    requires 0 <= day < 3_652_059 && 0 <= h < 24 && 0 <= m < 60 && 0 <= s < 60 && 0 <= u < 1_000_000
    requires t == Clock(day, h, m, s, u)
    ensures Format(t)[10..] == Lit("T") + Pad(h, 2) + Lit(":") + Pad(m, 2) + Lit(":") + Pad(s, 2)
              + (if u == 0 then [] else Lit(".") + Pad(u, 6)) + Lit("Z")
  {
    hide Pad, Format, CivilOf, Ordinal, ValidCivil, InstantOf, Lit;
    assert DaysBeforeYear(10_000) == 3_652_059;
    var f := Fields(CivilOf(day), h, m, s, u);
    ClockInstant(f, day);
    AfterDate(f);
  }

  lemma OneSymbols()
    ensures Lit("T") == [Ch('T' as int)] && Lit(":") == [Ch(':' as int)] && Lit("-") == [Ch('-' as int)]
    ensures Lit(".") == [Ch('.' as int)] && Lit("Z") == [Ch('Z' as int)]
  {
  }

  lemma PadTwo(n: nat)
    requires n < 100
    ensures Pad(n, 2) == [Ch('0' as int + n / 10), Ch('0' as int + n % 10)]
  {
    assert Pad(n / 10, 1) == Pad(n / 10 / 10, 0) + [Digit(n / 10 % 10)];
  }

  lemma PadFour(n: nat)
    requires n < 10_000
    ensures Pad(n, 4) == Pad(n / 100, 2) + [Ch('0' as int + n / 10 % 10), Ch('0' as int + n % 10)]
  {
    assert Pad(n / 10, 3) == Pad(n / 10 / 10, 2) + [Digit(n / 10 % 10)];
    assert n / 10 / 10 == n / 100;
  }

  /** What a date and a clock time without microseconds print as, digit by digit. */
  lemma DigitsPrint(c: Civil, h: int, m: int, s: int)
    requires ValidCivil(c) && 0 <= h < 24 && 0 <= m < 60 && 0 <= s < 60
    ensures var z := '0' as int;
            Format(InstantOf(Fields(c, h, m, s, 0))) ==
              [Ch(z + c.year / 1000), Ch(z + c.year / 100 % 10), Ch(z + c.year / 10 % 10), Ch(z + c.year % 10),
               Ch('-' as int),
               Ch(z + c.month / 10), Ch(z + c.month % 10), Ch('-' as int), Ch(z + c.day / 10), Ch(z + c.day % 10),
               Ch('T' as int), Ch(z + h / 10), Ch(z + h % 10), Ch(':' as int), Ch(z + m / 10), Ch(z + m % 10),
               Ch(':' as int),
               Ch(z + s / 10), Ch(z + s % 10), Ch('Z' as int)]
  {
    hide Pad, InstantOf, Format;
    PrintedFields(Fields(c, h, m, s, 0));
    PadFour(c.year);
    PadTwo(c.year / 100);
    PadTwo(c.month);
    PadTwo(c.day);
    PadTwo(h);
    PadTwo(m);
    PadTwo(s);
    assert c.year / 100 / 10 == c.year / 1000;
  }

  // Anchors: the first instant, a last day of March, two leap days, and the last second there is.

  lemma FirstInstantOrdinal(c: Civil)
    requires c == Civil(1, 1, 1)
    ensures ValidCivil(c) && Ordinal(c) == 0
  {
  }

  lemma FirstInstant(t: Instant)
    requires t == 0
    ensures Format(t) == Lit("0001-01-01T00:00:00Z")
  {
    hide Format, Pad, InstantOf, Ordinal, ValidCivil;
    var c := Civil(1, 1, 1);
    FirstInstantOrdinal(c);
    ClockInstant(Fields(c, 0, 0, 0, 0), 0);
    DigitsPrint(c, 0, 0, 0);
  }

  lemma LastDayOfMarchOrdinal(c: Civil)
    requires c == Civil(2026, 3, 31)
    ensures ValidCivil(c) && Ordinal(c) == 739705
  {
  }

  lemma LastDayOfMarch(t: Instant)
    requires t == 63_910_555_200_000_000
    ensures Format(t) == Lit("2026-03-31T12:00:00Z")
  {
    hide Format, Pad, InstantOf, Ordinal, ValidCivil;
    var c := Civil(2026, 3, 31);
    LastDayOfMarchOrdinal(c);
    ClockInstant(Fields(c, 12, 0, 0, 0), 739705);
    DigitsPrint(c, 12, 0, 0);
  }

  lemma LeapDayOrdinal(c: Civil)
    requires c == Civil(2024, 2, 29)
    ensures ValidCivil(c) && Ordinal(c) == 738944
  {
  }

  lemma LeapDay(t: Instant)
    requires t == 63_844_804_800_000_000
    ensures Format(t) == Lit("2024-02-29T12:00:00Z")
  {
    hide Format, Pad, InstantOf, Ordinal, ValidCivil;
    var c := Civil(2024, 2, 29);
    LeapDayOrdinal(c);
    ClockInstant(Fields(c, 12, 0, 0, 0), 738944);
    DigitsPrint(c, 12, 0, 0);
  }

  lemma CenturyLeapDayOrdinal(c: Civil)
    requires c == Civil(2000, 2, 29)
    ensures ValidCivil(c) && Ordinal(c) == 730178
  {
  }

  lemma CenturyLeapDay(t: Instant)
    requires t == 63_087_422_400_000_000
    ensures Format(t) == Lit("2000-02-29T12:00:00Z")
  {
    hide Format, Pad, InstantOf, Ordinal, ValidCivil;
    var c := Civil(2000, 2, 29);
    CenturyLeapDayOrdinal(c);
    ClockInstant(Fields(c, 12, 0, 0, 0), 730178);
    DigitsPrint(c, 12, 0, 0);
  }

  lemma LastSecondOrdinal(c: Civil)
    requires c == Civil(9999, 12, 31)
    ensures ValidCivil(c) && Ordinal(c) == 3652058
  {
  }

  lemma LastSecond(t: Instant)
    requires t == 315_537_897_599_000_000
    ensures Format(t) == Lit("9999-12-31T23:59:59Z")
  {
    hide Format, Pad, InstantOf, Ordinal, ValidCivil;
    var c := Civil(9999, 12, 31);
    LastSecondOrdinal(c);
    ClockInstant(Fields(c, 23, 59, 59, 0), 3652058);
    DigitsPrint(c, 23, 59, 59);
  }
}
