/**
 * The timestamp normaliser: a raw timestamp value (whatever JSON value the
 * pin carried) becomes `{formatted: "YYYY-MM-DD" or None, initial: raw}`.
 *
 * Python's `datetime` works on the proleptic Gregorian calendar over the
 * years 1..9999; a conversion that leaves that range raises, and the
 * normaliser turns that into `formatted = None`. The calendar arithmetic is
 * written out here: day numbers count days since 1970-01-01, as epoch
 * seconds floor-divided by 86400 do.
 */
module TimeUtil {
  import opened PyJson
  import opened PyText

  datatype Date = Date(year: int, month: int, day: int)

  /** The value normalised timestamps take: `{formatted, initial}`. */
  datatype DateInfo = DateInfo(formatted: Option<string>, initial: Json)

  const SecondsPerDay: int := 86400
  const MicrosPerDay: int := 86400 * 1000000
  /** Days from 0001-01-01 to 1970-01-01. */
  const EpochOrdinal: int := 719162
  /** Day numbers of 0001-01-01 and 9999-12-31, the range of Python's `datetime`. */
  const MinDay: int := -719162
  const MaxDay: int := 2932896

  predicate IsLeap(y: int)
  {
    y % 4 == 0 && (y % 100 != 0 || y % 400 == 0)
  }

  function YearLength(y: int): int
  {
    if IsLeap(y) then 366 else 365
  }

  function DaysInMonth(y: int, m: int): int
    requires 1 <= m <= 12
  {
    if m == 2 then (if IsLeap(y) then 29 else 28)
    else if m == 4 || m == 6 || m == 9 || m == 11 then 30
    else 31
  }

  /** Days of year `y` before the first of month `m` (`m == 13`: the whole year). */
  function DaysBeforeMonth(y: int, m: int): int
    requires 1 <= m <= 13
  {
    [0, 31, 59, 90, 120, 151, 181, 212, 243, 273, 304, 334, 365][m - 1]
    + (if m > 2 && IsLeap(y) then 1 else 0)
  }

  /** Days from 0001-01-01 to the first of January of year `y`. */
  function DaysBeforeYear(y: int): int
  {
    var p := y - 1;
    365 * p + p / 4 - p / 100 + p / 400
  }

  predicate ValidDate(d: Date)
  {
    1 <= d.month <= 12 && 1 <= d.day <= DaysInMonth(d.year, d.month)
  }

  /** A date Python's `datetime` can hold. */
  predicate InRange(d: Date)
  {
    ValidDate(d) && 1 <= d.year <= 9999
  }

  /** The day number of a date: days since 1970-01-01, negative before it. */
  function DaysFromCivil(d: Date): int
    requires 1 <= d.month <= 12
  {
    DaysBeforeYear(d.year) + DaysBeforeMonth(d.year, d.month) + d.day - 1 - EpochOrdinal
  }

  lemma MonthTable(y: int, m: int)
    requires 1 <= m <= 12
    ensures DaysBeforeMonth(y, m + 1) == DaysBeforeMonth(y, m) + DaysInMonth(y, m)
    ensures DaysBeforeMonth(y, 13) == YearLength(y)
  {
  }

  lemma DivStep4(p: int)
    ensures (p + 1) / 4 - p / 4 == if (p + 1) % 4 == 0 then 1 else 0
  {
  }

  lemma DivStep100(p: int)
    ensures (p + 1) / 100 - p / 100 == if (p + 1) % 100 == 0 then 1 else 0
  {
  }

  lemma DivStep400(p: int)
    ensures (p + 1) / 400 - p / 400 == if (p + 1) % 400 == 0 then 1 else 0
  {
  }

  lemma Mod100Mod4(y: int)
    requires y % 100 == 0
    ensures y % 4 == 0
  {
    var k := y / 100;
    assert y == 4 * (25 * k);
  }

  lemma Mod400Mod100(y: int)
    requires y % 400 == 0
    ensures y % 100 == 0
  {
    var k := y / 400;
    assert y == 100 * (4 * k);
  }

  lemma NextYear(y: int)
    ensures DaysBeforeYear(y + 1) == DaysBeforeYear(y) + YearLength(y)
  {
    var p := y - 1;
    DivStep4(p);
    DivStep100(p);
    DivStep400(p);
    assert p + 1 == y;
    if y % 100 == 0 { Mod100Mod4(y); }
    if y % 400 == 0 { Mod400Mod100(y); }
    var a4, a100, a400 := y / 4 - p / 4, y / 100 - p / 100, y / 400 - p / 400;
    assert DaysBeforeYear(y + 1) - DaysBeforeYear(y) == 365 + a4 - a100 + a400;
  }

  lemma {:induction false} DaysBeforeYearMonotone(a: int, b: int)
    requires a <= b
    ensures DaysBeforeYear(a) <= DaysBeforeYear(b)
    decreases b - a
  {
    if a < b {
      NextYear(a);
      DaysBeforeYearMonotone(a + 1, b);
    }
  }

  /** Walks year by year from `y`: the year in which day `rest` (counted from
      the first of January of `y`) falls, and the day's offset in that year. */
  function YearOf(rest: int, y: int): (r: (int, int))
    requires 0 <= rest
    ensures y <= r.0 && 0 <= r.1 < YearLength(r.0)
    ensures DaysBeforeYear(r.0) + r.1 == DaysBeforeYear(y) + rest
    decreases rest
  {
    if rest < YearLength(y) then (y, rest)
    else
      NextYear(y);
      YearOf(rest - YearLength(y), y + 1)
  }

  /** The month, from `m` on, in which day-of-year `r` of year `y` falls. */
  function MonthOf(y: int, r: int, m: int): (res: int)
    requires 0 <= r < YearLength(y) && 1 <= m <= 12 && DaysBeforeMonth(y, m) <= r
    ensures m <= res <= 12
    ensures DaysBeforeMonth(y, res) <= r < DaysBeforeMonth(y, res) + DaysInMonth(y, res)
    decreases 12 - m
  {
    MonthTable(y, m);
    if m == 12 || r < DaysBeforeMonth(y, m + 1) then m else MonthOf(y, r, m + 1)
  }

  /** The calendar date of a day number (the inverse of DaysFromCivil). */
  function CivilFromDays(z: int): (d: Date)
    requires MinDay <= z <= MaxDay
    ensures InRange(d) && DaysFromCivil(d) == z
  {
    var yr := YearOf(z + EpochOrdinal, 1);
    var y := yr.0;
    var r := yr.1;
    var m := MonthOf(y, r, 1);
    assert y <= 9999 by {
      if y > 9999 { DaysBeforeYearMonotone(10000, y); }
    }
    Date(y, m, r - DaysBeforeMonth(y, m) + 1)
  }

  lemma {:induction false} YearOfUnique(rest: int, y0: int, y: int, r: int)
    requires 0 <= rest && y0 <= y && 0 <= r < YearLength(y)
    requires DaysBeforeYear(y0) + rest == DaysBeforeYear(y) + r
    ensures YearOf(rest, y0) == (y, r)
    decreases y - y0
  {
    NextYear(y0);
    if y0 < y {
      DaysBeforeYearMonotone(y0 + 1, y);
      assert rest >= YearLength(y0);
      YearOfUnique(rest - YearLength(y0), y0 + 1, y, r);
      assert YearOf(rest, y0) == YearOf(rest - YearLength(y0), y0 + 1);
    } else {
      assert rest == r;
    }
  }

  lemma {:induction false} MonthOfUnique(y: int, r: int, m0: int, m: int)
    requires 0 <= r < YearLength(y) && 1 <= m0 <= m <= 12 && DaysBeforeMonth(y, m0) <= r
    requires DaysBeforeMonth(y, m) <= r < DaysBeforeMonth(y, m) + DaysInMonth(y, m)
    ensures MonthOf(y, r, m0) == m
    decreases m - m0
  {
    MonthTable(y, m0);
    if m0 < m {
      assert DaysBeforeMonth(y, m0 + 1) <= DaysBeforeMonth(y, m);
      MonthOfUnique(y, r, m0 + 1, m);
    }
  }

  lemma DayOfYearBounds(d: Date)
    requires InRange(d)
    ensures 0 <= DaysBeforeMonth(d.year, d.month) + d.day - 1 < YearLength(d.year)
  {
    MonthTable(d.year, d.month);
    MonthTable(d.year, 12);
  }

  lemma DayNumberInRange(d: Date)
    requires InRange(d)
    ensures MinDay <= DaysFromCivil(d) <= MaxDay
  {
    DayOfYearBounds(d);
    DaysBeforeYearMonotone(1, d.year);
    NextYear(d.year);
    DaysBeforeYearMonotone(d.year + 1, 10000);
  }

  lemma CivilFromDaysUnfold(z: int, y: int, r: int, m: int)
    requires MinDay <= z <= MaxDay
    requires YearOf(z + EpochOrdinal, 1) == (y, r)
    requires 0 <= r < YearLength(y) && 1 <= m <= 12 && DaysBeforeMonth(y, 1) <= r
    requires MonthOf(y, r, 1) == m
    ensures CivilFromDays(z) == Date(y, m, r - DaysBeforeMonth(y, m) + 1)
  {
  }

  /** Every date Python can hold has a day number in range, and converting
      that day number back gives the same date. */
  lemma CivilRoundTrip(d: Date)
    requires InRange(d)
    ensures MinDay <= DaysFromCivil(d) <= MaxDay
    ensures CivilFromDays(DaysFromCivil(d)) == d
  {
    DayNumberInRange(d);
    DayOfYearBounds(d);
    var y, m := d.year, d.month;
    var r := DaysBeforeMonth(y, m) + d.day - 1;
    var z := DaysFromCivil(d);
    assert z + EpochOrdinal == DaysBeforeYear(y) + r;
    DaysBeforeYearMonotone(1, y);
    YearOfUnique(z + EpochOrdinal, 1, y, r);
    MonthOfUnique(y, r, 1, m);
    CivilFromDaysUnfold(z, y, r, m);
  }

  /** The date of a day number, None outside the years 1..9999. */
  function DayToDate(z: int): (r: Option<Date>)
    ensures r.Some? <==> MinDay <= z <= MaxDay
    ensures r.Some? ==> InRange(r.value) && DaysFromCivil(r.value) == z
  {
    if MinDay <= z <= MaxDay then Some(CivilFromDays(z)) else None
  }

  // ---------------------------------------------------------------------
  // Formatting as strftime("%Y-%m-%d")

  function Digit(n: int): (c: char)
    ensures '0' <= c <= '9'
  {
    DigitChar(n % 10)
  }

  function FormatDate(d: Date): (s: string)
    requires InRange(d)
    ensures |s| == 10 && s[4] == '-' && s[7] == '-'
    ensures forall i :: 0 <= i < 10 && i != 4 && i != 7 ==> IsAsciiDigit(s[i])
  {
    [Digit(d.year / 10 / 10 / 10), Digit(d.year / 10 / 10), Digit(d.year / 10), Digit(d.year), '-',
     Digit(d.month / 10), Digit(d.month), '-',
     Digit(d.day / 10), Digit(d.day)]
  }

  function DigitValue(c: char): int
  {
    c as int - '0' as int
  }

  /** Reads `YYYY-MM-DD` back: the reference that says what FormatDate writes. */
  function ParseIsoDate(s: string): Option<Date>
  {
    if |s| == 10 && s[4] == '-' && s[7] == '-'
       && forall i :: 0 <= i < 10 && i != 4 && i != 7 ==> IsAsciiDigit(s[i])
    then
      Some(Date(1000 * DigitValue(s[0]) + 100 * DigitValue(s[1]) + 10 * DigitValue(s[2]) + DigitValue(s[3]),
                10 * DigitValue(s[5]) + DigitValue(s[6]),
                10 * DigitValue(s[8]) + DigitValue(s[9])))
    else None
  }

  lemma DigitValueOf(n: int)
    ensures DigitValue(Digit(n)) == n % 10
  {
    var k := n % 10;
    assert k == 0 || k == 1 || k == 2 || k == 3 || k == 4 || k == 5 || k == 6 || k == 7 || k == 8 || k == 9;
  }

  lemma TwoDigits(n: int)
    requires 0 <= n <= 99
    ensures 10 * DigitValue(Digit(n / 10)) + DigitValue(Digit(n)) == n
  {
    DigitValueOf(n / 10);
    DigitValueOf(n);
  }

  lemma FourDigits(y: int)
    requires 0 <= y <= 9999
    ensures 1000 * DigitValue(Digit(y / 10 / 10 / 10)) + 100 * DigitValue(Digit(y / 10 / 10))
            + 10 * DigitValue(Digit(y / 10)) + DigitValue(Digit(y)) == y
  {
    var a, b, c := y / 10, y / 10 / 10, y / 10 / 10 / 10;
    DigitValueOf(c);
    DigitValueOf(b);
    DigitValueOf(a);
    DigitValueOf(y);
    assert y == 10 * a + y % 10;
    assert a == 10 * b + a % 10;
    assert b == 10 * c + b % 10;
    assert 0 <= c < 10 && c % 10 == c;
    assert y == 1000 * c + 100 * (b % 10) + 10 * (a % 10) + y % 10;
  }

  /** The formatted string is exactly the year in four digits, the month and
      the day in two, separated by dashes. */
  lemma FormatRoundTrip(d: Date)
    requires InRange(d)
    ensures ParseIsoDate(FormatDate(d)) == Some(d)
  {
    var s := FormatDate(d);
    FourDigits(d.year);
    TwoDigits(d.month);
    TwoDigits(d.day);
    assert s[0] == Digit(d.year / 10 / 10 / 10) && s[1] == Digit(d.year / 10 / 10);
    assert s[2] == Digit(d.year / 10) && s[3] == Digit(d.year);
    assert s[5] == Digit(d.month / 10) && s[6] == Digit(d.month);
    assert s[8] == Digit(d.day / 10) && s[9] == Digit(d.day);
    var p := ParseIsoDate(s);
    assert p.Some?;
    assert p.value.year == d.year && p.value.month == d.month && p.value.day == d.day;
  }

  // ---------------------------------------------------------------------
  // The normaliser

  /** What `dateutil.parser.parse` returns: a local date and time of day (in
      microseconds) and, for an aware value, its UTC offset in microseconds. */
  datatype DateTime = DateTime(date: Date, micros: int, offset: Option<int>)

  predicate ValidDateTime(t: DateTime)
  {
    InRange(t.date) && 0 <= t.micros < MicrosPerDay
    && (t.offset.Some? ==> -MicrosPerDay < t.offset.value < MicrosPerDay)
  }

  type ParsedDateTime = t: DateTime | ValidDateTime(t) witness DateTime(Date(1970, 1, 1), 0, None)

  /** The parts of the conversion that are not modelled here. */
  datatype DateOracles = DateOracles(
    /** `dateutil.parser.parse`: None when it raises. */
    parse: string -> Option<ParsedDateTime>,
    /** The whole epoch seconds of `datetime.fromtimestamp(x)` for a float
        `x`, after Python's rounding to microseconds. */
    floatSeconds: real -> int)

  /** The day number of the UTC instant of a parsed value; a naive value is
      taken as UTC (`dt.replace(tzinfo=timezone.utc)`). */
  function UtcDay(t: ParsedDateTime): int
  {
    UtcMicros(t) / MicrosPerDay
  }

  /** The UTC instant of a parsed value, in microseconds since the epoch. */
  function UtcMicros(t: ParsedDateTime): int
  {
    var off := match t.offset case Some(o) => o case None => 0;
    DaysFromCivil(t.date) * MicrosPerDay + t.micros - off
  }

  /** The UTC date of an epoch-seconds value; days are floor-divided. */
  function EpochDate(secs: int): (r: Option<Date>)
    ensures r.Some? ==>
              && InRange(r.value)
              && DaysFromCivil(r.value) * SecondsPerDay <= secs < (DaysFromCivil(r.value) + 1) * SecondsPerDay
    ensures r.None? <==> !(MinDay <= secs / SecondsPerDay <= MaxDay)
  {
    DayToDate(secs / SecondsPerDay)
  }

  /** `_safe_to_datetime`, reduced to the UTC calendar date of its result:
      None when it returns None. */
  function SafeToDate(o: DateOracles, value: Json): (r: Option<Date>)
    ensures r.Some? ==> InRange(r.value)
  {
    match value
    case JNull => None
    // a bool is an int to isinstance
    case JBool(b) => EpochDate(if b then 1 else 0)
    case JInt(i) => EpochDate(i)
    case JFloat(x) => EpochDate(o.floatSeconds(x))
    case JStr(s) =>
      var text := Strip(s);
      if text == "" then None
      else
        (match o.parse(text)
         case None => None
         case Some(t) => DayToDate(UtcDay(t)))
    case _ => None
  }

  /** `parse_pinterest_timestamp`. */
  function ParsePinterestTimestamp(o: DateOracles, raw: Json): (r: DateInfo)
    ensures r.initial == raw
    ensures r.formatted.Some? ==> ParseIsoDate(r.formatted.value).Some?
                                  && InRange(ParseIsoDate(r.formatted.value).value)
  {
    match SafeToDate(o, raw)
    case None => DateInfo(None, raw)
    case Some(d) =>
      FormatRoundTrip(d);
      DateInfo(Some(FormatDate(d)), raw)
  }

  // ---------------------------------------------------------------------
  // Properties of the normaliser

  lemma NullTimestamp(o: DateOracles)
    ensures ParsePinterestTimestamp(o, JNull) == DateInfo(None, JNull)
  {
  }

  /** An integer epoch gives the UTC calendar date of that second, formatted
      `YYYY-MM-DD`, and None exactly when the date leaves the years 1..9999. */
  lemma EpochTimestamp(o: DateOracles, secs: int)
    ensures var r := ParsePinterestTimestamp(o, JInt(secs));
      && r.initial == JInt(secs)
      && (r.formatted.None? <==> !(MinDay <= secs / SecondsPerDay <= MaxDay))
      && (r.formatted.Some? ==>
            exists d :: InRange(d) && r.formatted.value == FormatDate(d)
              && DaysFromCivil(d) * SecondsPerDay <= secs < (DaysFromCivil(d) + 1) * SecondsPerDay)
  {
    match EpochDate(secs)
    case None =>
    case Some(d) =>
      assert ParsePinterestTimestamp(o, JInt(secs)).formatted.value == FormatDate(d);
  }

  /** A bool takes the numeric branch: True is one second after the epoch. */
  lemma BoolTimestamp(o: DateOracles, b: bool)
    ensures ParsePinterestTimestamp(o, JBool(b)) == DateInfo(Some("1970-01-01"), JBool(b))
  {
    EpochDay(if b then 1 else 0);
    EpochFormatted();
  }

  /** The first day's seconds fall on 1970-01-01. */
  lemma EpochDay(secs: int)
    requires 0 <= secs < SecondsPerDay
    ensures EpochDate(secs) == Some(Date(1970, 1, 1))
  {
    var epoch := Date(1970, 1, 1);
    assert DaysFromCivil(epoch) == 0;
    CivilRoundTrip(epoch);
    assert secs / SecondsPerDay == 0;
  }

  /** 1970-01-01 formats as itself. */
  lemma EpochFormatted()
    ensures FormatDate(Date(1970, 1, 1)) == "1970-01-01"
  {
    assert 1970 / 10 / 10 / 10 == 1 && 1970 / 10 / 10 == 19 && 1970 / 10 == 197;
    assert Digit(1) == '1' && Digit(19) == '9' && Digit(197) == '7' && Digit(1970) == '0';
    assert Digit(0) == '0' && Digit(1) == '1';
  }

  /** A string that is blank after strip(), or that the parser rejects, gives
      no date; `initial` keeps the string as given, untrimmed. */
  lemma UnparsedStringTimestamp(o: DateOracles, s: string)
    requires Strip(s) == "" || o.parse(Strip(s)).None?
    ensures ParsePinterestTimestamp(o, JStr(s)) == DateInfo(None, JStr(s))
  {
  }

  lemma ParsedStringDate(o: DateOracles, s: string, t: ParsedDateTime)
    requires Strip(s) != "" && o.parse(Strip(s)) == Some(t)
    ensures SafeToDate(o, JStr(s)) == DayToDate(UtcDay(t))
  {
  }

  lemma MidnightPlus(z: int, us: int)
    requires 0 <= us < MicrosPerDay
    ensures (z * MicrosPerDay + us) / MicrosPerDay == z
  {
  }

  lemma FloorDiv(x: int, k: int)
    requires k > 0
    ensures (x / k) * k <= x < (x / k) * k + k
  {
  }

  /** A naive parsed value is taken as UTC: its own date is the result. */
  lemma NaiveTimestamp(o: DateOracles, s: string, t: ParsedDateTime)
    requires Strip(s) != "" && o.parse(Strip(s)) == Some(t) && t.offset.None?
    ensures ParsePinterestTimestamp(o, JStr(s)) == DateInfo(Some(FormatDate(t.date)), JStr(s))
  {
    ParsedStringDate(o, s, t);
    FormattedOfDay(o, JStr(s), UtcDay(t));
    MidnightPlus(DaysFromCivil(t.date), t.micros);
    assert UtcDay(t) == DaysFromCivil(t.date);
    CivilRoundTrip(t.date);
  }

  lemma FormattedOfDay(o: DateOracles, raw: Json, z: int)
    requires SafeToDate(o, raw) == DayToDate(z)
    ensures var r := ParsePinterestTimestamp(o, raw);
      && (r.formatted.None? <==> !(MinDay <= z <= MaxDay))
      && (r.formatted.Some? ==> r.formatted.value == FormatDate(CivilFromDays(z)))
  {
  }

  /** An aware parsed value is converted to UTC first: the result is the
      date of the local time minus the offset, or None when that date leaves
      the years 1..9999. */
  lemma AwareTimestamp(o: DateOracles, s: string, t: ParsedDateTime)
    requires Strip(s) != "" && o.parse(Strip(s)) == Some(t) && t.offset.Some?
    ensures UtcMicros(t) == DaysFromCivil(t.date) * MicrosPerDay + t.micros - t.offset.value
    ensures var r := ParsePinterestTimestamp(o, JStr(s));
      && (r.formatted.None? <==> !(MinDay <= UtcMicros(t) / MicrosPerDay <= MaxDay))
      && (r.formatted.Some? ==>
            exists d :: InRange(d) && r.formatted.value == FormatDate(d)
              && DaysFromCivil(d) * MicrosPerDay <= UtcMicros(t) < DaysFromCivil(d) * MicrosPerDay + MicrosPerDay)
  {
    ParsedStringDate(o, s, t);
    var z := UtcDay(t);
    FormattedOfDay(o, JStr(s), z);
    if MinDay <= z <= MaxDay {
      var d := CivilFromDays(z);
      FloorDiv(UtcMicros(t), MicrosPerDay);
      assert DaysFromCivil(d) == z;
    }
  }

  /** Lists and dicts are not a supported type: no date, `initial` kept. */
  lemma UnsupportedTimestamp(o: DateOracles, raw: Json)
    requires raw.JArr? || raw.JObj?
    ensures ParsePinterestTimestamp(o, raw) == DateInfo(None, raw)
  {
  }
}
