/** The display helpers of src/lib/utils.ts: the Portuguese name of a unit
    and the short Portuguese rendering of a date, with the local calendar
    arithmetic of `new Date(year, monthIndex, day)` that the rendering of
    `YYYY-MM-DD` strings goes through. */
module Utils {
  import opened Wrappers
  import opened Text
  import Money

  // -----------------------------------------------------------------------
  // translateUnit
  // -----------------------------------------------------------------------

  /** `unitMap[unit] || unit` */
  function TranslateUnit(unit: string): string
  {
    if unit == "kg" then "kg"
    else if unit == "g" then "g"
    else if unit == "liters" then "litros"
    else if unit == "ml" then "ml"
    else if unit == "units" then "unidades"
    else unit
  }

  /** Only the English names of volume and count change; every other unit,
      known or not, is shown as it is stored. */
  lemma TranslateUnitCases(unit: string)
    ensures unit == "liters" <==> TranslateUnit(unit) == "litros" && unit != "litros"
    ensures unit == "units" <==> TranslateUnit(unit) == "unidades" && unit != "unidades"
    ensures TranslateUnit(unit) != unit <==> unit == "liters" || unit == "units"
  {
  }

  /** Translating a translated unit changes nothing. */
  lemma TranslateUnitIdempotent(unit: string)
    ensures TranslateUnit(TranslateUnit(unit)) == TranslateUnit(unit)
  {
  }

  // -----------------------------------------------------------------------
  // parseInt
  // -----------------------------------------------------------------------

  predicate IsDigit(c: char)
  {
    '0' <= c <= '9'
  }

  /** The longest prefix of decimal digits. */
  function DigitPrefix(s: string): (r: string)
    ensures AllDigits(r) && |r| <= |s| && r == s[..|r|]
    ensures |r| < |s| ==> !IsDigit(s[|r|])
  {
    if s != [] && IsDigit(s[0]) then [s[0]] + DigitPrefix(s[1..]) else []
  }

  /** `parseInt(s)` with no radix: blanks skipped, an optional sign, then
      the decimal digits up to the first other character; `None` is `NaN`,
      when no digit follows. */
  function ParseInt(s: string): (r: Option<int>)
    ensures r.None? <==> DigitPrefix(SignFree(TrimStart(s))) == []
  {
    var t := TrimStart(s);
    var digits := DigitPrefix(SignFree(t));
    var value: int := if digits == [] then 0 else DigitsValue(digits);
    if digits == [] then None
    else if t[0] == '-' then Some(-value)
    else Some(value)
  }

  /** The text after an optional leading sign. */
  function SignFree(t: string): (r: string)
    ensures |r| <= |t|
  {
    if t != [] && (t[0] == '-' || t[0] == '+') then t[1..] else t
  }

  /** A string of digits reads as the number it denotes. */
  lemma ParseIntDigits(s: string)
    requires s != [] && AllDigits(s)
    ensures ParseInt(s) == Some(DigitsValue(s))
  {
    assert !IsWhiteSpace(s[0]);
    DigitPrefixAll(s);
  }

  lemma {:induction false} DigitPrefixAll(s: string)
    requires AllDigits(s)
    ensures DigitPrefix(s) == s
  {
    if s != [] {
      DigitPrefixAll(s[1..]);
    }
  }

  /** A leading zero does not change the value of a string of digits. */
  lemma {:induction false} DigitsValueLeadingZero(s: string)
    requires AllDigits(s)
    ensures AllDigits("0" + s) && DigitsValue("0" + s) == DigitsValue(s)
  {
    if s != [] {
      var p := s[..|s| - 1];
      assert ("0" + s)[..|s|] == "0" + p;
      DigitsValueLeadingZero(p);
    }
  }

  // -----------------------------------------------------------------------
  // local calendar
  // -----------------------------------------------------------------------

  predicate IsLeapYear(y: int)
  {
    (y % 4 == 0 && y % 100 != 0) || y % 400 == 0
  }

  /** The length of month `m` (0 for January) of year `y`. */
  function DaysInMonth(y: int, m: int): (n: int)
    requires 0 <= m < 12
    ensures 28 <= n <= 31
    ensures m == 1 ==> (n == 29 <==> IsLeapYear(y))
    ensures m != 1 ==> n >= 30
  {
    if m == 1 then (if IsLeapYear(y) then 29 else 28)
    else if m == 3 || m == 5 || m == 8 || m == 10 then 30
    else 31
  }

  /** A moment of the local calendar, as the getters of a valid `Date`
      report it: `getFullYear`, `getMonth` (0 for January), `getDate`,
      `getHours` and `getMinutes`. */
  datatype DateTime = DateTime(year: int, month: int, day: int, hours: int, minutes: int)

  predicate IsCalendarDay(y: int, m: int, d: int)
  {
    0 <= m < 12 && 1 <= d <= DaysInMonth(y, m)
  }

  predicate ValidDateTime(t: DateTime)
  {
    IsCalendarDay(t.year, t.month, t.day) && 0 <= t.hours < 24 && 0 <= t.minutes < 60
  }

  type LocalDateTime = t: DateTime | ValidDateTime(t) witness DateTime(1970, 0, 1, 0, 0)

  /** Days from 1 January of year 0 to 1 January of year `y` in the
      proleptic Gregorian calendar: 365 a year, plus one for each leap year
      in between (`(y + 3) / 4` is the number of multiples of 4 in
      `0..y - 1`, and likewise for 100 and 400). */
  function DaysBeforeYear(y: int): int
  {
    365 * y + (y + 3) / 4 - (y + 99) / 100 + (y + 399) / 400
  }

  /** A year has 366 days when it is a leap year and 365 otherwise. */
  lemma YearLength(y: int)
    ensures DaysBeforeYear(y + 1) == DaysBeforeYear(y) + (if IsLeapYear(y) then 366 else 365)
  {
    assert (y + 4) / 4 == (y + 3) / 4 + (if y % 4 == 0 then 1 else 0);
    assert (y + 100) / 100 == (y + 99) / 100 + (if y % 100 == 0 then 1 else 0);
    assert (y + 400) / 400 == (y + 399) / 400 + (if y % 400 == 0 then 1 else 0);
  }

  /** Days from 1 January to the first of month `m` of year `y`. */
  function DaysBeforeMonth(y: int, m: int): (n: int)
    requires 0 <= m < 12
    ensures 0 <= n <= 335
  {
    var leap := if m >= 2 && IsLeapYear(y) then 1 else 0;
    [0, 31, 59, 90, 120, 151, 181, 212, 243, 273, 304, 334][m] + leap
  }

  /** The month after `m` starts when `m` ends. */
  lemma MonthLength(y: int, m: int)
    requires 0 <= m < 11
    ensures DaysBeforeMonth(y, m + 1) == DaysBeforeMonth(y, m) + DaysInMonth(y, m)
  {
  }

  /** December ends when the year does. */
  lemma DecemberEndsYear(y: int)
    ensures DaysBeforeYear(y) + DaysBeforeMonth(y, 11) + DaysInMonth(y, 11) == DaysBeforeYear(y + 1)
  {
    YearLength(y);
  }

  /** The day count, from 1 January of year 0, of day `d` of month `m`
      counted from the first of the month as `MakeDay` counts it: day 0 is
      the day before the first, day 32 of January is 1 February. */
  function DayCount(y: int, m: int, d: int): int
    requires 0 <= m < 12
  {
    DaysBeforeYear(y) + DaysBeforeMonth(y, m) + d - 1
  }

  /** The first day of the month after (`y`, `m`) is counted right after
      its last day. */
  lemma NextMonthStart(y: int, m: int)
    requires 0 <= m < 12
    ensures var ny, nm := if m == 11 then y + 1 else y, if m == 11 then 0 else m + 1;
      DayCount(ny, nm, 1) == DayCount(y, m, DaysInMonth(y, m) + 1)
  {
    if m == 11 {
      DecemberEndsYear(y);
    } else {
      MonthLength(y, m);
    }
  }

  /** Day `d` of a month is day `d` plus the length of the month before
      it, counted in that month. */
  lemma PreviousMonthCount(y: int, m: int, d: int)
    requires 0 <= m < 12
    ensures var py, pm := if m == 0 then y - 1 else y, if m == 0 then 11 else m - 1;
      DayCount(py, pm, d + DaysInMonth(py, pm)) == DayCount(y, m, d)
  {
    NextMonthStart(if m == 0 then y - 1 else y, if m == 0 then 11 else m - 1);
  }

  /** Day `d` of a month is day `d` minus its length, counted in the next
      month. */
  lemma NextMonthCount(y: int, m: int, d: int)
    requires 0 <= m < 12
    ensures var ny, nm := if m == 11 then y + 1 else y, if m == 11 then 0 else m + 1;
      DayCount(ny, nm, d - DaysInMonth(y, m)) == DayCount(y, m, d)
  {
    NextMonthStart(y, m);
  }

  /** A day number past the end of its month moves into the next months,
      one before the first into the previous months: the result is the
      calendar day with the same day count, as `MakeDay` counts days from
      the first of the month. A calendar day stays as it is. */
  function RollDay(y: int, m: int, d: int): (r: (int, int, int))
    requires 0 <= m < 12
    ensures IsCalendarDay(r.0, r.1, r.2)
    ensures DayCount(r.0, r.1, r.2) == DayCount(y, m, d)
    ensures IsCalendarDay(y, m, d) ==> r == (y, m, d)
    decreases if d < 1 then 32 - d else d
  {
    if d < 1 then
      var py := if m == 0 then y - 1 else y;
      var pm := if m == 0 then 11 else m - 1;
      PreviousMonthCount(y, m, d);
      RollDay(py, pm, d + DaysInMonth(py, pm))
    else if d > DaysInMonth(y, m) then
      var ny := if m == 11 then y + 1 else y;
      var nm := if m == 11 then 0 else m + 1;
      NextMonthCount(y, m, d);
      RollDay(ny, nm, d - DaysInMonth(y, m))
    else (y, m, d)
  }

  /** Each year's days come after the days of every earlier year. */
  lemma {:induction false} DaysBeforeYearGrows(a: int, b: int)
    requires a <= b
    ensures DaysBeforeYear(a) + 365 * (b - a) <= DaysBeforeYear(b)
    decreases b - a
  {
    if a < b {
      YearLength(b - 1);
      DaysBeforeYearGrows(a, b - 1);
    }
  }

  /** The days of a year are counted from the start of that year up to,
      and not including, the start of the next. */
  lemma CalendarDayInYear(y: int, m: int, d: int)
    requires IsCalendarDay(y, m, d)
    ensures DaysBeforeYear(y) <= DayCount(y, m, d) < DaysBeforeYear(y + 1)
  {
    YearLength(y);
  }

  /** A day of an earlier year is counted before every day of a later one. */
  lemma EarlierYearFirst(y: int, m: int, d: int, y': int, m': int, d': int)
    requires IsCalendarDay(y, m, d) && IsCalendarDay(y', m', d') && y < y'
    ensures DayCount(y, m, d) < DayCount(y', m', d')
  {
    CalendarDayInYear(y, m, d);
    CalendarDayInYear(y', m', d');
    DaysBeforeYearGrows(y + 1, y');
  }

  /** Two calendar days with the same day count are the same day, so the
      day count fixes the result of `RollDay`. */
  lemma DayCountInjective(y: int, m: int, d: int, y': int, m': int, d': int)
    requires IsCalendarDay(y, m, d) && IsCalendarDay(y', m', d')
    requires DayCount(y, m, d) == DayCount(y', m', d')
    ensures y == y' && m == m' && d == d'
  {
    if y < y' {
      EarlierYearFirst(y, m, d, y', m', d');
    } else if y' < y {
      EarlierYearFirst(y', m', d', y, m, d);
    }
    if m != m' {
      MonthsIncrease(y, if m < m' then m else m', if m < m' then m' else m);
    }
  }

  /** Later months start no earlier than the end of earlier ones. */
  lemma {:induction false} MonthsIncrease(y: int, m: int, m': int)
    requires 0 <= m < m' < 12
    ensures DaysBeforeMonth(y, m) + DaysInMonth(y, m) <= DaysBeforeMonth(y, m')
  {
  }

  /** `new Date(year, monthIndex, day)` at local midnight: a two-digit year
      means 19xx, a month index outside 0..11 moves whole years, a day
      outside the month moves days; any `NaN` argument gives an invalid
      date. */
  function MakeLocalDate(year: Option<int>, monthIndex: Option<int>, day: Option<int>): (r: Option<LocalDateTime>)
    ensures r.Some? <==> year.Some? && monthIndex.Some? && day.Some?
  {
    if year.None? || monthIndex.None? || day.None? then None
    else
      var y := if 0 <= year.value <= 99 then 1900 + year.value else year.value;
      var ymd := RollDay(y + monthIndex.value / 12, monthIndex.value % 12, day.value);
      Some(DateTime(ymd.0, ymd.1, ymd.2, 0, 0))
  }

  /** A day of the calendar is made as it is given. */
  lemma MakeLocalDateCalendarDay(y: int, m: int, d: int)
    requires y >= 100 && IsCalendarDay(y, m, d)
    ensures MakeLocalDate(Some(y), Some(m), Some(d)) == Some(DateTime(y, m, d, 0, 0))
  {
    assert y + m / 12 == y && m % 12 == m;
    assert RollDay(y, m, d) == (y, m, d);
  }

  // -----------------------------------------------------------------------
  // formatDatePT and formatDateTimePT
  // -----------------------------------------------------------------------

  const Months := ["jan", "fev", "mar", "abr", "mai", "jun", "jul", "ago", "set", "out", "nov", "dez"]

  /** `Date | string`: a `Date` object, `None` when it is an invalid date,
      or a string. */
  datatype DateInput = AsDate(date: Option<LocalDateTime>) | AsText(text: string)

  /** The date a `Date | string` argument of `formatDatePT` denotes: a
      `YYYY-MM-DD` string through the local constructor, any other string
      through the engine's parser `parse`. */
  function DateOfInput(date: DateInput, parse: string -> Option<LocalDateTime>): Option<LocalDateTime>
  {
    match date
    case AsDate(d) => d
    case AsText(s) =>
      var parts := Split(s, '-');
      if |parts| == 3 then
        var month := ParseInt(parts[1]);
        MakeLocalDate(ParseInt(parts[0]), if month.Some? then Some(month.value - 1) else None, ParseInt(parts[2]))
      else parse(s)
  }

  /** `${day} de ${month}`; an invalid date renders its `NaN` day and
      missing month as text. */
  function DayMonth(d: Option<LocalDateTime>): string
  {
    match d
    case Some(t) => NatToString(t.day) + " de " + Months[t.month]
    case None => "NaN de undefined"
  }

  function FormatDatePT(date: DateInput, parse: string -> Option<LocalDateTime>): string
  {
    DayMonth(DateOfInput(date, parse))
  }

  /** A string of digits holds no dash. */
  lemma DigitsNoDash(s: string)
    requires AllDigits(s)
    ensures '-' !in s
  {
    assert forall i :: 0 <= i < |s| ==> s[i] != '-';
  }

  /** Three fields of digits joined by dashes split back into the three. */
  lemma DashedFields(ys: string, ms: string, ds: string)
    requires AllDigits(ys) && AllDigits(ms) && AllDigits(ds)
    ensures Split(ys + "-" + ms + "-" + ds, '-') == [ys, ms, ds]
  {
    DigitsNoDash(ys);
    DigitsNoDash(ms);
    DigitsNoDash(ds);
    assert ys + "-" + ms + "-" + ds == ys + ['-'] + (ms + ['-'] + ds);
    SplitFirst(ys, '-', ms + ['-'] + ds);
    SplitFirst(ms, '-', ds);
    SplitNoSeparator(ds, '-');
  }

  /** A `YYYY-MM-DD` string of a calendar day renders as its day and the
      abbreviation of its month: the month field counts from 1, the table
      from 0. Leading zeros in the fields are allowed. */
  lemma FormatDatePTDashed(ys: string, ms: string, ds: string, parse: string -> Option<LocalDateTime>)
    requires ys != [] && AllDigits(ys) && ms != [] && AllDigits(ms) && ds != [] && AllDigits(ds)
    requires DigitsValue(ys) >= 100
    requires IsCalendarDay(DigitsValue(ys), DigitsValue(ms) - 1, DigitsValue(ds))
    ensures FormatDatePT(AsText(ys + "-" + ms + "-" + ds), parse) ==
      NatToString(DigitsValue(ds)) + " de " + Months[DigitsValue(ms) - 1]
  {
    DashedDate(ys, ms, ds, parse);
    MakeLocalDateCalendarDay(DigitsValue(ys), DigitsValue(ms) - 1, DigitsValue(ds));
  }

  /** A `YYYY-MM-DD` string of digit fields goes through the local
      constructor with the month field less one. */
  lemma DashedDate(ys: string, ms: string, ds: string, parse: string -> Option<LocalDateTime>)
    requires ys != [] && AllDigits(ys) && ms != [] && AllDigits(ms) && ds != [] && AllDigits(ds)
    ensures DateOfInput(AsText(ys + "-" + ms + "-" + ds), parse) ==
      MakeLocalDate(Some(DigitsValue(ys)), Some(DigitsValue(ms) - 1), Some(DigitsValue(ds)))
  {
    DashedFields(ys, ms, ds);
    DashedText(ys + "-" + ms + "-" + ds, ys, ms, ds, parse);
    ParseIntDigits(ys);
    ParseIntDigits(ms);
    ParseIntDigits(ds);
  }

  /** A string of three dashed fields is read field by field. */
  lemma DashedText(s: string, ys: string, ms: string, ds: string, parse: string -> Option<LocalDateTime>)
    requires Split(s, '-') == [ys, ms, ds]
    ensures var month := ParseInt(ms);
      DateOfInput(AsText(s), parse) ==
        MakeLocalDate(ParseInt(ys), if month.Some? then Some(month.value - 1) else None, ParseInt(ds))
  {
  }

  /** A day written `YYYY-MM-DD`, with the month counted from 1. */
  function IsoDate(y: nat, m: nat, d: nat): string
    requires m < 100 && d < 100
  {
    NatToString(y) + "-" + Money.TwoDigits(m) + "-" + Money.TwoDigits(d)
  }

  /** A calendar day written `YYYY-MM-DD` renders as its day and the
      abbreviation of its month. */
  lemma FormatDatePTIso(y: nat, m: nat, d: nat, parse: string -> Option<LocalDateTime>)
    requires y >= 100 && 1 <= m <= 12 && IsCalendarDay(y, m - 1, d)
    ensures FormatDatePT(AsText(IsoDate(y, m, d)), parse) == NatToString(d) + " de " + Months[m - 1]
  {
    NatToStringValue(y);
    FormatDatePTDashed(NatToString(y), Money.TwoDigits(m), Money.TwoDigits(d), parse);
  }

  /** For instance "2024-02-05", the fifth of February 2024, renders as
      "5 de fev". */
  lemma FormatDatePTExample(date: string, parse: string -> Option<LocalDateTime>)
    requires date == "2024-02-05"
    ensures FormatDatePT(AsText(date), parse) == "5 de fev"
  {
    IsoDateExample(date);
    FormatDatePTIso(2024, 2, 5, parse);
    assert NatToString(5) == "5";
  }

  lemma IsoDateExample(date: string)
    requires date == "2024-02-05"
    ensures date == IsoDate(2024, 2, 5)
  {
    assert Money.TwoDigits(2) == "02" && Money.TwoDigits(5) == "05";
    assert NatToString(2024) == "2024";
  }

  /** `${day} de ${month} às ${hours}:${minutes}`, where a string argument
      is always read by the engine's parser. */
  function FormatDateTimePT(date: DateInput, parse: string -> Option<LocalDateTime>): (r: string)
  {
    var d := match date
      case AsDate(d) => d
      case AsText(s) => parse(s);
    match d
    case Some(t) => DayMonth(d) + " às " + Money.TwoDigits(t.hours) + ":" + Money.TwoDigits(t.minutes)
    case None => DayMonth(d) + " às NaN:NaN"
  }

  /** For a valid date the text ends in the clock time `HH:mm`: two digits
      for the hours and two for the minutes, which read back as the hours
      and minutes of the date. */
  lemma FormatDateTimePTClock(t: LocalDateTime, parse: string -> Option<LocalDateTime>)
    ensures var r := FormatDateTimePT(AsDate(Some(t)), parse);
      |r| >= 5 && r[|r| - 3] == ':' &&
      AllDigits(r[|r| - 5..|r| - 3]) && DigitsValue(r[|r| - 5..|r| - 3]) == t.hours &&
      AllDigits(r[|r| - 2..]) && DigitsValue(r[|r| - 2..]) == t.minutes
  {
    var r := FormatDateTimePT(AsDate(Some(t)), parse);
    var prefix := DayMonth(Some(t)) + " às ";
    assert r == prefix + Money.TwoDigits(t.hours) + ":" + Money.TwoDigits(t.minutes);
    assert r[|r| - 5..|r| - 3] == Money.TwoDigits(t.hours);
    assert r[|r| - 2..] == Money.TwoDigits(t.minutes);
  }
}
