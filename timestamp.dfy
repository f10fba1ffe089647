/**
 * The watermark text of the incremental sync: an epoch-millisecond instant
 * rendered as `yyyy-MM-dd'T'HH:mm:ss.SSS'Z'` in UTC on the proleptic
 * Gregorian calendar, for instants from 1970-01-01T00:00:00.000Z up to (not
 * including) 10000-01-01T00:00:00.000Z, and the reader that takes such a text
 * back to its instant.
 */
module UtcTimestamp {
  import opened Wrappers
  import opened Text

  const MillisPerSecond := 1000
  const MillisPerMinute := 60000
  const MillisPerHour := 3600000
  const MillisPerDay := 86400000

  /** 10000-01-01T00:00:00.000Z, the first instant whose year has five digits. */
  const MaxMillis := 253402300800000

  // ---------------------------------------------------------------------------
  // Calendar

  predicate IsLeap(y: int)
  {
    y % 4 == 0 && (y % 100 != 0 || y % 400 == 0)
  }

  function DaysInYear(y: int): int
  {
    if IsLeap(y) then 366 else 365
  }

  function DaysInMonth(y: int, m: int): int
    requires 1 <= m <= 12
  {
    if m == 2 then (if IsLeap(y) then 29 else 28)
    else if m == 4 || m == 6 || m == 9 || m == 11 then 30
    else 31
  }

  /** Leap years among 1 .. y-1. */
  function LeapsBefore(y: int): int
  {
    (y - 1) / 4 - (y - 1) / 100 + (y - 1) / 400
  }

  /** Days from 1970-01-01 to the first day of year `y`. */
  function DaysBeforeYear(y: int): int
  {
    365 * (y - 1970) + LeapsBefore(y) - LeapsBefore(1970)
  }

  /** Passing a multiple of `k` adds one to the count of multiples. */
  lemma MultiplesStep(y: int, k: int)
    requires k == 4 || k == 100 || k == 400
    ensures y / k - (y - 1) / k == (if y % k == 0 then 1 else 0)
  {
    if k == 4 {
    } else if k == 100 {
    } else {
    }
  }

  /** Every fourth year is a leap year, except centuries not divisible by 400. */
  lemma LeapsStep(y: int)
    ensures LeapsBefore(y + 1) == LeapsBefore(y) + (if IsLeap(y) then 1 else 0)
  {
    MultiplesStep(y, 4);
    MultiplesStep(y, 100);
    MultiplesStep(y, 400);
    if y % 100 == 0 {
      assert y == 4 * (25 * (y / 100));
    }
    if y % 400 == 0 {
      assert y == 100 * (4 * (y / 400));
    }
  }

  lemma DaysBeforeNextYear(y: int)
    ensures DaysBeforeYear(y + 1) == DaysBeforeYear(y) + DaysInYear(y)
  {
    LeapsStep(y);
  }

  lemma {:induction false} DaysBeforeYearGrows(y1: int, y2: int)
    requires 1970 <= y1 <= y2
    ensures DaysBeforeYear(y1) + 365 * (y2 - y1) <= DaysBeforeYear(y2)
    decreases y2 - y1
  {
    if y1 < y2 {
      DaysBeforeYearGrows(y1, y2 - 1);
      DaysBeforeNextYear(y2 - 1);
    }
  }

  /** Days before each month of a common year. */
  const CumulativeDays: seq<int> := [0, 31, 59, 90, 120, 151, 181, 212, 243, 273, 304, 334, 365]

  /** Days from the first of the year to the first of month `m` (13: the end of the year). */
  function DaysBeforeMonth(y: int, m: int): int
    requires 1 <= m <= 13
  {
    CumulativeDays[m - 1] + (if m > 2 && IsLeap(y) then 1 else 0)
  }

  lemma DaysBeforeNextMonth(y: int, m: int)
    requires 1 <= m <= 12
    ensures DaysBeforeMonth(y, m + 1) == DaysBeforeMonth(y, m) + DaysInMonth(y, m)
    ensures DaysBeforeMonth(y, 1) == 0 && DaysBeforeMonth(y, 13) == DaysInYear(y)
  {
  }

  lemma {:induction false} DaysBeforeMonthGrows(y: int, m1: int, m2: int)
    requires 1 <= m1 <= m2 <= 13
    ensures DaysBeforeMonth(y, m1) + 28 * (m2 - m1) <= DaysBeforeMonth(y, m2)
    decreases m2 - m1
  {
    if m1 < m2 {
      DaysBeforeMonthGrows(y, m1, m2 - 1);
      DaysBeforeNextMonth(y, m2 - 1);
    }
  }

  datatype Date = Date(year: int, month: int, day: int)

  predicate ValidDate(d: Date)
  {
    1970 <= d.year <= 9999 && 1 <= d.month <= 12 && 1 <= d.day <= DaysInMonth(d.year, d.month)
  }

  /** Days from 1970-01-01 to `d`. */
  function DayNumber(d: Date): int
    requires ValidDate(d)
  {
    DaysBeforeYear(d.year) + DaysBeforeMonth(d.year, d.month) + d.day - 1
  }

  /** The last day number the formatter covers, plus one. */
  const MaxDays := 2932897

  /** The year holding day `days`, searching upwards from `y`. */
  function YearFrom(y: int, days: int): (r: int)
    requires 1970 <= y <= 9999 && DaysBeforeYear(y) <= days < MaxDays
    ensures y <= r <= 9999 && DaysBeforeYear(r) <= days < DaysBeforeYear(r + 1)
    decreases 10000 - y
  {
    DaysBeforeNextYear(y);
    assert DaysBeforeYear(10000) == MaxDays;
    if days < DaysBeforeYear(y + 1) then y else YearFrom(y + 1, days)
  }

  /** The month holding day `dayOfYear` of year `y`, searching upwards from `m`. */
  function MonthFrom(y: int, m: int, dayOfYear: int): (r: int)
    requires 1 <= m <= 12 && DaysBeforeMonth(y, m) <= dayOfYear < DaysInYear(y)
    ensures m <= r <= 12 && DaysBeforeMonth(y, r) <= dayOfYear < DaysBeforeMonth(y, r + 1)
    decreases 12 - m
  {
    DaysBeforeNextMonth(y, m);
    if dayOfYear < DaysBeforeMonth(y, m + 1) then m else MonthFrom(y, m + 1, dayOfYear)
  }

  /** The calendar date of day number `days`. */
  function DateOf(days: int): (d: Date)
    requires 0 <= days < MaxDays
    ensures ValidDate(d) && DayNumber(d) == days
  {
    assert DaysBeforeYear(1970) == 0;
    var y := YearFrom(1970, days);
    DaysBeforeNextYear(y);
    var m := MonthFrom(y, 1, days - DaysBeforeYear(y));
    DaysBeforeNextMonth(y, m);
    Date(y, m, days - DaysBeforeYear(y) - DaysBeforeMonth(y, m) + 1)
  }

  /** A year is fixed by any day inside it. */
  lemma YearUnique(y1: int, y2: int, days: int)
    requires 1970 <= y1 && 1970 <= y2
    requires DaysBeforeYear(y1) <= days < DaysBeforeYear(y1 + 1)
    requires DaysBeforeYear(y2) <= days < DaysBeforeYear(y2 + 1)
    ensures y1 == y2
  {
    if y1 < y2 {
      DaysBeforeYearGrows(y1 + 1, y2);
    } else if y2 < y1 {
      DaysBeforeYearGrows(y2 + 1, y1);
    }
  }

  /** A month is fixed by any day inside it. */
  lemma MonthUnique(y: int, m1: int, m2: int, dayOfYear: int)
    requires 1 <= m1 <= 12 && 1 <= m2 <= 12
    requires DaysBeforeMonth(y, m1) <= dayOfYear < DaysBeforeMonth(y, m1 + 1)
    requires DaysBeforeMonth(y, m2) <= dayOfYear < DaysBeforeMonth(y, m2 + 1)
    ensures m1 == m2
  {
    if m1 < m2 {
      DaysBeforeMonthGrows(y, m1 + 1, m2);
    } else if m2 < m1 {
      DaysBeforeMonthGrows(y, m2 + 1, m1);
    }
  }

  /** A day number lies inside its year and, within the year, inside its month. */
  lemma DayNumberPlace(d: Date)
    requires ValidDate(d)
    ensures 0 <= DayNumber(d) < MaxDays
    ensures DaysBeforeYear(d.year) <= DayNumber(d) < DaysBeforeYear(d.year + 1)
    ensures DaysBeforeMonth(d.year, d.month) <= DayNumber(d) - DaysBeforeYear(d.year) < DaysBeforeMonth(d.year, d.month + 1)
  {
    DaysBeforeNextYear(d.year);
    DaysBeforeNextMonth(d.year, d.month);
    DaysBeforeMonthGrows(d.year, d.month + 1, 13);
    DaysBeforeYearGrows(1970, d.year);
    DaysBeforeYearGrows(d.year + 1, 10000);
    assert DaysBeforeYear(1970) == 0 && DaysBeforeYear(10000) == MaxDays;
  }

  /** Day numbering is a bijection: every valid date is the date of its own day number. */
  lemma DateOfDayNumber(d: Date)
    requires ValidDate(d)
    ensures 0 <= DayNumber(d) < MaxDays
    ensures DateOf(DayNumber(d)) == d
  {
    var n := DayNumber(d);
    DayNumberPlace(d);
    var e := DateOf(n);
    DayNumberPlace(e);
    YearUnique(d.year, e.year, n);
    MonthUnique(d.year, d.month, e.month, n - DaysBeforeYear(d.year));
  }

  // ---------------------------------------------------------------------------
  // Instants

  datatype DateTime = DateTime(date: Date, hour: int, minute: int, second: int, milli: int)

  predicate ValidDateTime(t: DateTime)
  {
    ValidDate(t.date) && 0 <= t.hour < 24 && 0 <= t.minute < 60 && 0 <= t.second < 60 && 0 <= t.milli < 1000
  }

  /** Milliseconds into the day. */
  function MillisOfDay(t: DateTime): int
  {
    ((t.hour * 60 + t.minute) * 60 + t.second) * MillisPerSecond + t.milli
  }

  function ToMillis(t: DateTime): int
    requires ValidDateTime(t)
  {
    DayNumber(t.date) * MillisPerDay + MillisOfDay(t)
  }

  /** The UTC calendar fields of an epoch-millisecond instant. */
  function FromMillis(ms: int): (t: DateTime)
    requires 0 <= ms < MaxMillis
    ensures ValidDateTime(t) && ToMillis(t) == ms
  {
    var days := ms / MillisPerDay;
    var rem := ms % MillisPerDay;
    var seconds := rem / MillisPerSecond;
    var minutes := seconds / 60;
    DateTime(DateOf(days), minutes / 60, minutes % 60, seconds % 60, rem % MillisPerSecond)
  }

  lemma MillisOfDayBounds(t: DateTime)
    requires ValidDateTime(t)
    ensures 0 <= MillisOfDay(t) < MillisPerDay
  {
  }

  /** The calendar fields of an instant are the only valid ones that give it. */
  lemma FromToMillis(t: DateTime)
    requires ValidDateTime(t)
    ensures 0 <= ToMillis(t) < MaxMillis
    ensures FromMillis(ToMillis(t)) == t
  {
    DateOfDayNumber(t.date);
    MillisOfDayBounds(t);
    var n := DayNumber(t.date);
    var ms := ToMillis(t);
    assert ms / MillisPerDay == n && ms % MillisPerDay == MillisOfDay(t);
  }

  // ---------------------------------------------------------------------------
  // Text

  /** `yyyy`, `MM`, `dd`. */
  function DateFields(t: DateTime): seq<string>
    requires ValidDateTime(t)
  {
    [PadDigits(t.date.year, 4), PadDigits(t.date.month, 2), PadDigits(t.date.day, 2)]
  }

  /** `HH`, `mm`, `ss`. */
  function ClockFields(t: DateTime): seq<string>
    requires ValidDateTime(t)
  {
    [PadDigits(t.hour, 2), PadDigits(t.minute, 2), PadDigits(t.second, 2)]
  }

  /** `HH:mm:ss.SSS`. */
  function TimeOfDay(t: DateTime): string
    requires ValidDateTime(t)
  {
    Join(ClockFields(t), ':') + ['.'] + PadDigits(t.milli, 3)
  }

  /** `yyyy-MM-dd'T'HH:mm:ss.SSS'Z'` of the fields. */
  function Render(t: DateTime): string
    requires ValidDateTime(t)
  {
    Join(DateFields(t), '-') + ['T'] + TimeOfDay(t) + ['Z']
  }

  /** `SimpleDateFormat("yyyy-MM-dd'T'HH:mm:ss.SSS'Z'")` with the UTC zone. */
  function FormatIso(ms: int): (s: string)
    requires 0 <= ms < MaxMillis
  {
    Render(FromMillis(ms))
  }

  predicate DigitField(p: string, width: nat)
  {
    |p| == width && AllDigits(p)
  }

  /** The three numbers of `first<sep>NN<sep>NN`, the first of `width` digits, if the text has that shape. */
  function ReadTriple(s: string, sep: char, width: nat): Option<(nat, nat, nat)>
  {
    var p := Split(s, sep);
    if |p| == 3 && DigitField(p[0], width) && DigitField(p[1], 2) && DigitField(p[2], 2)
    then Some((ParseNat(p[0]), ParseNat(p[1]), ParseNat(p[2])))
    else None
  }

  /** The fields named by the date, clock and fraction texts, if each is well formed and they make a valid instant. */
  function ReadFields(date: string, clock: string, fraction: string): Option<DateTime>
  {
    match (ReadTriple(date, '-', 4), ReadTriple(clock, ':', 2))
    case (Some((y, mo, d)), Some((h, mi, sec))) =>
      if DigitField(fraction, 3) then
        var t := DateTime(Date(y, mo, d), h, mi, sec, ParseNat(fraction));
        if ValidDateTime(t) then Some(t) else None
      else None
    case _ => None
  }

  /** The date, clock and fraction texts of `<date>T<clock>.<fraction>Z`, split at the first 'T' and the first '.' after it. */
  function Pieces(s: string): (r: Option<(string, string, string)>)
    ensures r.Some? ==> s == r.value.0 + ['T'] + (r.value.1 + ['.'] + r.value.2) + ['Z']
  {
    if |s| == 0 || s[|s| - 1] != 'Z' then None
    else
      var outer := SplitFirst(s[..|s| - 1], 'T');
      if outer.1.None? then None
      else
        var inner := SplitFirst(outer.1.value, '.');
        if inner.1.None? then None
        else
          Reassemble(s, outer.0, outer.1.value, inner.0, inner.1.value);
          Some((outer.0, inner.0, inner.1.value))
  }

  /** A text cut at its last character and at two separators is the pieces put back together. */
  lemma Reassemble(s: string, date: string, time: string, clock: string, fraction: string)
    requires |s| > 0 && s[|s| - 1] == 'Z'
    requires s[..|s| - 1] == date + ['T'] + time
    requires time == clock + ['.'] + fraction
    ensures s == date + ['T'] + (clock + ['.'] + fraction) + ['Z']
  {
    assert s == s[..|s| - 1] + ['Z'];
  }


  /** The fields of a text in the format, provided it is one and names a valid instant. */
  function ReadDateTime(s: string): Option<DateTime>
  {
    match Pieces(s)
    case None => None
    case Some((date, clock, fraction)) => ReadFields(date, clock, fraction)
  }

  /** The instant a text in the format names, if it is one. */
  function ParseIso(s: string): Option<int>
  {
    match ReadDateTime(s)
    case None => None
    case Some(t) => Some(ToMillis(t))
  }

  /** Three padded fields joined by `sep` split back into the three, and have no other separator in them. */
  lemma JoinedFields(fields: seq<string>, sep: char, other: char)
    requires |fields| == 3 && AllDigits(fields[0]) && AllDigits(fields[1]) && AllDigits(fields[2])
    requires !IsDigit(sep) && !IsDigit(other) && sep != other
    ensures Split(Join(fields, sep), sep) == fields && other !in Join(fields, sep)
  {
    forall k | 0 <= k < |fields|
      ensures sep !in fields[k] && other !in fields[k]
    {
      DigitsExclude(fields[k], sep);
      DigitsExclude(fields[k], other);
    }
    SplitJoin(fields, sep);
    JoinExcludes(fields, sep, other);
  }

  /** Three numbers padded and joined are read back. */
  lemma ReadTripleOf(a: nat, b: nat, c: nat, sep: char, width: nat)
    requires a < Pow10(width) && b < 100 && c < 100 && !IsDigit(sep)
    ensures ReadTriple(Join([PadDigits(a, width), PadDigits(b, 2), PadDigits(c, 2)], sep), sep, width) == Some((a, b, c))
  {
    var fields := [PadDigits(a, width), PadDigits(b, 2), PadDigits(c, 2)];
    JoinedFields(fields, sep, if sep == 'x' then 'y' else 'x');
    Pow10Values();
    PadDigitsRoundTrip(a, width);
    PadDigitsRoundTrip(b, 2);
    PadDigitsRoundTrip(c, 2);
  }

  /** A text read as three numbers is their padded, joined rendering. */
  lemma TripleOfRead(s: string, sep: char, width: nat)
    requires ReadTriple(s, sep, width).Some?
    ensures var (a, b, c) := ReadTriple(s, sep, width).value;
      Join([PadDigits(a, width), PadDigits(b, 2), PadDigits(c, 2)], sep) == s
  {
    var p := Split(s, sep);
    JoinSplit(s, sep);
    PadDigitsOfParse(p[0]);
    PadDigitsOfParse(p[1]);
    PadDigitsOfParse(p[2]);
    assert p == [p[0], p[1], p[2]];
  }

  lemma DropLast(x: string, c: char)
    ensures (x + [c])[..|x|] == x
  {
  }

  /** A rendered text splits at its 'T' and '.' into the date, the clock and the fraction. */
  lemma RenderShape(t: DateTime)
    requires ValidDateTime(t)
    ensures Pieces(Render(t)) == Some((Join(DateFields(t), '-'), Join(ClockFields(t), ':'), PadDigits(t.milli, 3)))
  {
    var date := Join(DateFields(t), '-');
    var clock := Join(ClockFields(t), ':');
    JoinedFields(DateFields(t), '-', 'T');
    JoinedFields(ClockFields(t), ':', '.');
    DropLast(date + ['T'] + TimeOfDay(t), 'Z');
    SplitFirstCons(date, 'T', TimeOfDay(t));
    SplitFirstCons(clock, '.', PadDigits(t.milli, 3));
  }

  /** The fields of an instant are read back from their own rendering. */
  lemma ReadFieldsOf(t: DateTime)
    requires ValidDateTime(t)
    ensures ReadFields(Join(DateFields(t), '-'), Join(ClockFields(t), ':'), PadDigits(t.milli, 3)) == Some(t)
  {
    Pow10Values();
    ReadTripleOf(t.date.year, t.date.month, t.date.day, '-', 4);
    ReadTripleOf(t.hour, t.minute, t.second, ':', 2);
    PadDigitsRoundTrip(t.milli, 3);
  }

  /** Reading a rendered text gives back its fields. */
  lemma ReadRender(t: DateTime)
    requires ValidDateTime(t)
    ensures ReadDateTime(Render(t)) == Some(t)
  {
    RenderShape(t);
    ReadFieldsOf(t);
  }

  /** Well-formed field texts are the renderings of the fields read from them. */
  lemma FieldsOfRead(date: string, clock: string, fraction: string)
    requires ReadFields(date, clock, fraction).Some?
    ensures var t := ReadFields(date, clock, fraction).value;
      Join(DateFields(t), '-') == date && Join(ClockFields(t), ':') == clock && PadDigits(t.milli, 3) == fraction
  {
    TripleOfRead(date, '-', 4);
    TripleOfRead(clock, ':', 2);
    PadDigitsOfParse(fraction);
  }

  /** Rendering the fields read from a text gives back the text: there is one spelling per instant. */
  lemma RenderRead(s: string)
    requires ReadDateTime(s).Some?
    ensures Render(ReadDateTime(s).value) == s
  {
    var (date, clock, fraction) := Pieces(s).value;
    FieldsOfRead(date, clock, fraction);
  }

  /** The formatted text is 24 characters: the date, 'T', the time of day, 'Z'. */
  lemma FormatIsoShape(ms: int)
    requires 0 <= ms < MaxMillis
    ensures var s := FormatIso(ms);
      |s| == 24 && s[10] == 'T' && s[23] == 'Z'
      && s[..10] == Join(DateFields(FromMillis(ms)), '-')
  {
    var t := FromMillis(ms);
    var f := DateFields(t);
    var c := ClockFields(t);
    JoinThree(f[0], f[1], f[2], '-');
    JoinThree(c[0], c[1], c[2], ':');
    var date := Join(f, '-');
    var s := date + ['T'] + TimeOfDay(t) + ['Z'];
    assert |date| == 10 && |TimeOfDay(t)| == 12;
    assert s[..10] == date;
  }

  /** Formatting then parsing gives back the instant. */
  lemma ParseFormatIso(ms: int)
    requires 0 <= ms < MaxMillis
    ensures ParseIso(FormatIso(ms)) == Some(ms)
  {
    ReadRender(FromMillis(ms));
  }

  /** Parsing then formatting gives back the text: no two texts name the same instant. */
  lemma FormatParseIso(s: string)
    requires ParseIso(s).Some?
    ensures 0 <= ParseIso(s).value < MaxMillis
    ensures FormatIso(ParseIso(s).value) == s
  {
    var t := ReadDateTime(s).value;
    FromToMillis(t);
    RenderRead(s);
  }

  /** Noon of 2024-03-08 is 1709899200000 milliseconds after the epoch. */
  lemma NoonExampleMillis()
    ensures ValidDateTime(DateTime(Date(2024, 3, 8), 12, 0, 0, 0))
    ensures ToMillis(DateTime(Date(2024, 3, 8), 12, 0, 0, 0)) == 1709899200000
  {
    assert DaysBeforeYear(2024) == 19723;
  }

  lemma NoonExampleDate(t: DateTime)
    requires t == DateTime(Date(2024, 3, 8), 12, 0, 0, 0)
    ensures Join(DateFields(t), '-') == "2024-03-08"
  {
    NoonDateDigits();
    JoinThreeOf(DateFields(t), "2024", "03", "08", '-', "2024-03-08");
  }

  lemma NoonExampleTime(t: DateTime)
    requires t == DateTime(Date(2024, 3, 8), 12, 0, 0, 0)
    ensures TimeOfDay(t) == "12:00:00.000"
  {
    NoonClockDigits();
    JoinThreeOf(ClockFields(t), "12", "00", "00", ':', "12:00:00");
    assert "12:00:00" + ['.'] + "000" == "12:00:00.000";
  }

  lemma NoonDateDigits()
    ensures PadDigits(2024, 4) == "2024" && PadDigits(3, 2) == "03" && PadDigits(8, 2) == "08"
  {
    assert PadDigits(20, 2) == "20";
    assert PadDigits(202, 3) == "202";
  }

  lemma NoonClockDigits()
    ensures PadDigits(12, 2) == "12" && PadDigits(0, 2) == "00" && PadDigits(0, 3) == "000"
  {
  }

  /** Three fields joined, when their joined text is known. */
  lemma JoinThreeOf(fields: seq<string>, a: string, b: string, c: string, sep: char, text: string)
    requires fields == [a, b, c] && a + [sep] + (b + [sep] + c) == text
    ensures Join(fields, sep) == text
  {
    JoinThree(a, b, c, sep);
  }

  lemma NoonExampleText(t: DateTime)
    requires t == DateTime(Date(2024, 3, 8), 12, 0, 0, 0)
    ensures Render(t) == "2024-03-08T12:00:00.000Z"
  {
    NoonExampleDate(t);
    NoonExampleTime(t);
    NoonExampleSpliced();
    RenderFrom(t, "2024-03-08", "12:00:00.000", "2024-03-08T12:00:00.000Z");
  }

  lemma NoonExampleSpliced()
    ensures "2024-03-08" + ['T'] + "12:00:00.000" + ['Z'] == "2024-03-08T12:00:00.000Z"
  {
  }

  /** The rendering is the date, 'T', the time of day and 'Z', whatever those read. */
  lemma RenderFrom(t: DateTime, date: string, time: string, text: string)
    requires ValidDateTime(t) && Join(DateFields(t), '-') == date && TimeOfDay(t) == time
    requires date + ['T'] + time + ['Z'] == text
    ensures Render(t) == text
  {
  }



  /** 1709899200000 is rendered "2024-03-08T12:00:00.000Z". */
  lemma FormatIsoExample()
    ensures FormatIso(1709899200000) == "2024-03-08T12:00:00.000Z"
  {
    NoonExampleMillis();
    FromToMillis(DateTime(Date(2024, 3, 8), 12, 0, 0, 0));
    NoonExampleText(DateTime(Date(2024, 3, 8), 12, 0, 0, 0));
  }
}
