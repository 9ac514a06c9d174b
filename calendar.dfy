/**
 * Calendar dates as Python's `datetime` reads and writes them:
 * `datetime.strptime(s, '%Y-%m-%d')`, `date.weekday()` and `strftime('%A')`
 * in the C locale, over the proleptic Gregorian calendar.
 */
module Calendar {
  import opened Common

  datatype Date = Date(year: int, month: int, day: int)

  predicate IsLeap(y: int) {
    y % 4 == 0 && (y % 100 != 0 || y % 400 == 0)
  }

  function DaysInMonth(y: int, m: int): (n: int)
    requires 1 <= m <= 12
    ensures 28 <= n <= 31
    ensures n == 29 <==> m == 2 && IsLeap(y)
  {
    if m == 2 then (if IsLeap(y) then 29 else 28)
    else if m == 4 || m == 6 || m == 9 || m == 11 then 30
    else 31
  }

  /** A date `datetime` can hold: years 1 to 9999 and a day that exists in its month. */
  predicate ValidDate(d: Date) {
    1 <= d.year <= 9999 && 1 <= d.month <= 12 && 1 <= d.day <= DaysInMonth(d.year, d.month)
  }

  // ---------------------------------------------------------------------------
  // strptime(s, '%Y-%m-%d')
  // ---------------------------------------------------------------------------

  /** A directive's match: the number it denotes and the characters it used. */
  datatype Field = Field(value: int, len: nat)

  /**
   * `%m` at position i: the first of the alternatives `1[0-2]`, `0[1-9]`,
   * `[1-9]` that matches there. The regular expression could backtrack to a
   * later alternative when the `-` after the month is missing, but a later
   * alternative only ever matches a prefix of an earlier match, and the
   * character following that prefix is then a digit, so backtracking never
   * finds a match.
   */
  function MonthAt(s: string, i: nat): (r: Option<Field>)
    ensures r.Some? ==> 1 <= r.value.value <= 12 && 1 <= r.value.len <= 2 && i + r.value.len <= |s|
    ensures r.Some? ==> AllDigits(s[i..i + r.value.len]) && DigitsValue(s[i..i + r.value.len]) == r.value.value
  {
    if i + 1 < |s| && s[i] == '1' && '0' <= s[i + 1] <= '2' then
      DigitsValue2(s[i..i + 2]);
      Some(Field(10 + DigitValue(s[i + 1]), 2))
    else if i + 1 < |s| && s[i] == '0' && '1' <= s[i + 1] <= '9' then
      DigitsValue2(s[i..i + 2]);
      Some(Field(DigitValue(s[i + 1]), 2))
    else if i < |s| && '1' <= s[i] <= '9' then
      assert s[i..i + 1][..0] == [];
      Some(Field(DigitValue(s[i]), 1))
    else None
  }

  /**
   * `%d` at position i: the first of `3[01]`, `[12]\d`, `0[1-9]`, `[1-9]`,
   * ` [1-9]` that matches there (the directive ends the format, so the first
   * alternative that matches is the one kept).
   */
  function DayAt(s: string, i: nat): (r: Option<Field>)
    ensures r.Some? ==> 1 <= r.value.value <= 31 && 1 <= r.value.len <= 2 && i + r.value.len <= |s|
  {
    if i + 1 < |s| && s[i] == '3' && '0' <= s[i + 1] <= '1' then Some(Field(30 + DigitValue(s[i + 1]), 2))
    else if i + 1 < |s| && '1' <= s[i] <= '2' && IsDigit(s[i + 1]) then
      Some(Field(10 * DigitValue(s[i]) + DigitValue(s[i + 1]), 2))
    else if i + 1 < |s| && s[i] == '0' && '1' <= s[i + 1] <= '9' then Some(Field(DigitValue(s[i + 1]), 2))
    else if i < |s| && '1' <= s[i] <= '9' then Some(Field(DigitValue(s[i]), 1))
    else if i + 1 < |s| && s[i] == ' ' && '1' <= s[i + 1] <= '9' then Some(Field(DigitValue(s[i + 1]), 2))
    else None
  }

  /**
   * `datetime.strptime(s, '%Y-%m-%d')`: four digits, `-`, a month, `-`, a
   * day, nothing after it ("unconverted data remains" otherwise), and a
   * date that exists (year 0 and 31 April are refused). None is the
   * ValueError.
   */
  function StrptimeDate(s: string): (r: Option<Date>)
    ensures r.Some? ==> ValidDate(r.value)
  {
    if |s| < 5 || !AllDigits(s[..4]) || s[4] != '-' then None
    else
      var y := DigitsValue(s[..4]);
      DigitsValue4(s[..4]);
      match MonthAt(s, 5)
      case None => None
      case Some(m) =>
        var j := 5 + m.len;
        if j >= |s| || s[j] != '-' then None
        else match DayAt(s, j + 1)
          case None => None
          case Some(d) =>
            if j + 1 + d.len != |s| then None
            else if y < 1 || d.value > DaysInMonth(y, m.value) then None
            else Some(Date(y, m.value, d.value))
  }

  lemma DigitsValue2(s: string)
    requires |s| == 2 && AllDigits(s)
    ensures DigitsValue(s) == 10 * DigitValue(s[0]) + DigitValue(s[1])
  {
    assert s[..1][..0] == [];
    assert DigitsValue(s[..1]) == DigitValue(s[0]);
  }

  lemma DigitsValue4(s: string)
    requires |s| == 4 && AllDigits(s)
    ensures DigitsValue(s) == 1000 * DigitValue(s[0]) + 100 * DigitValue(s[1]) + 10 * DigitValue(s[2]) + DigitValue(s[3])
    ensures DigitsValue(s) < 10000
  {
    assert s[..3][..2] == s[..2];
    DigitsValue2(s[..2]);
  }

  /** The text `YYYY-MM-DD`: ten characters, digits everywhere but the two dashes. */
  predicate DateShaped(s: string) {
    |s| == 10 && s[4] == '-' && s[7] == '-'
    && AllDigits(s[..4]) && AllDigits(s[5..7]) && AllDigits(s[8..])
  }

  /** `YYYY-MM-DD` text names a date exactly when its three numbers form a valid date. */
  lemma StrptimeDateShaped(s: string)
    requires DateShaped(s)
    ensures StrptimeDate(s).Some? <==> ValidDate(Date(DigitsValue(s[..4]), DigitsValue(s[5..7]), DigitsValue(s[8..])))
    ensures StrptimeDate(s).Some? ==> StrptimeDate(s).value == Date(DigitsValue(s[..4]), DigitsValue(s[5..7]), DigitsValue(s[8..]))
  {
    DigitsValue4(s[..4]);
    DigitsValue2(s[5..7]);
    DigitsValue2(s[8..]);
    assert s[5..7][0] == s[5] && s[5..7][1] == s[6];
    assert s[8..][0] == s[8] && s[8..][1] == s[9];
  }

  /** Any text with characters after a `YYYY-MM-DD` prefix is refused ("unconverted data remains"). */
  lemma StrptimeDateTrailing(s: string, tail: string)
    requires DateShaped(s) && tail != []
    ensures StrptimeDate(s + tail).None?
  {
    var t := s + tail;
    assert t[..4] == s[..4];
    assert t[4] == '-' && t[7] == '-';
    assert t[5] == s[5] && t[6] == s[6] && t[8] == s[8] && t[9] == s[9];
  }

  // ---------------------------------------------------------------------------
  // Writing dates back
  // ---------------------------------------------------------------------------

  /** `f"{n:04d}"` for 0 <= n < 10000. */
  function Pad4(n: nat): (r: string)
    requires n < 10000
    ensures |r| == 4 && AllDigits(r) && DigitsValue(r) == n
  {
    var r := [DigitChar(n / 1000), DigitChar(n / 100 % 10), DigitChar(n / 10 % 10), DigitChar(n % 10)];
    DigitsValue4(r);
    Split4(n);
    r
  }

  lemma Split4(n: nat)
    requires n < 10000
    ensures n / 1000 < 10
    ensures 1000 * (n / 1000) + 100 * (n / 100 % 10) + 10 * (n / 10 % 10) + n % 10 == n
  {
    var a, b := n / 10, n % 10;
    assert n == 10 * a + b;
    assert a == 10 * (a / 10) + a % 10;
    assert a / 10 == n / 100;
    var c := n / 100;
    assert c == 10 * (c / 10) + c % 10;
    assert c / 10 == n / 1000;
  }

  /** `date.isoformat()`, the same text as `strftime('%Y-%m-%d')`. */
  function IsoDate(d: Date): (r: string)
    requires ValidDate(d)
    ensures DateShaped(r)
  {
    var r := Pad4(d.year) + "-" + Pad2(d.month) + "-" + Pad2(d.day);
    assert r[..4] == Pad4(d.year) && r[5..7] == Pad2(d.month) && r[8..] == Pad2(d.day);
    r
  }

  /** Round trip: strptime reads back every date that isoformat writes. */
  lemma StrptimeIsoDate(d: Date)
    requires ValidDate(d)
    ensures StrptimeDate(IsoDate(d)) == Some(d)
  {
    var r := IsoDate(d);
    assert r[..4] == Pad4(d.year) && r[5..7] == Pad2(d.month) && r[8..] == Pad2(d.day);
    StrptimeDateShaped(r);
  }

  // ---------------------------------------------------------------------------
  // Weekdays
  // ---------------------------------------------------------------------------

  function DaysBeforeYear(y: int): (n: int)
    requires y >= 1
  {
    var p := y - 1;
    p * 365 + p / 4 - p / 100 + p / 400
  }

  function DaysBeforeMonth(y: int, m: int): (n: int)
    requires 1 <= m <= 12
  {
    (if m == 1 then 0 else if m == 2 then 31 else if m == 3 then 59 else if m == 4 then 90
     else if m == 5 then 120 else if m == 6 then 151 else if m == 7 then 181 else if m == 8 then 212
     else if m == 9 then 243 else if m == 10 then 273 else if m == 11 then 304 else 334)
    + (if m > 2 && IsLeap(y) then 1 else 0)
  }

  /** `date.toordinal()`: 1 for 1 January of year 1, one more for each following day. */
  function Ordinal(d: Date): int
    requires ValidDate(d)
  {
    DaysBeforeYear(d.year) + DaysBeforeMonth(d.year, d.month) + d.day
  }

  /** `date.weekday()`: Monday is 0 and Sunday is 6. */
  function Weekday(d: Date): (w: int)
    requires ValidDate(d)
    ensures 0 <= w < 7
  {
    (Ordinal(d) + 6) % 7
  }

  /** `strftime('%A')` in the C locale. */
  function DayName(w: int): string
    requires 0 <= w < 7
  {
    ["Monday", "Tuesday", "Wednesday", "Thursday", "Friday", "Saturday", "Sunday"][w]
  }

  /** The calendar day after `d` (the last day of year 9999 has none). */
  function NextDay(d: Date): (r: Date)
    requires ValidDate(d) && d != Date(9999, 12, 31)
    ensures ValidDate(r)
  {
    if d.day < DaysInMonth(d.year, d.month) then Date(d.year, d.month, d.day + 1)
    else if d.month < 12 then Date(d.year, d.month + 1, 1)
    else Date(d.year + 1, 1, 1)
  }

  lemma DaysBeforeYearNext(y: int)
    requires y >= 1
    ensures DaysBeforeYear(y + 1) == DaysBeforeYear(y) + DaysBeforeMonth(y, 12) + 31
  {
    var p := y - 1;
    assert (p + 1) / 4 == p / 4 + (if y % 4 == 0 then 1 else 0);
    assert (p + 1) / 100 == p / 100 + (if y % 100 == 0 then 1 else 0);
    assert (p + 1) / 400 == p / 400 + (if y % 400 == 0 then 1 else 0);
  }

  /** Consecutive days have consecutive ordinals. */
  lemma OrdinalNextDay(d: Date)
    requires ValidDate(d) && d != Date(9999, 12, 31)
    ensures Ordinal(NextDay(d)) == Ordinal(d) + 1
  {
    if d.day == DaysInMonth(d.year, d.month) && d.month == 12 {
      DaysBeforeYearNext(d.year);
    }
  }

  /** The weekday advances by one, Sunday wrapping to Monday, from one day to the next. */
  lemma WeekdayNextDay(d: Date)
    requires ValidDate(d) && d != Date(9999, 12, 31)
    ensures Weekday(NextDay(d)) == (Weekday(d) + 1) % 7
  {
    OrdinalNextDay(d);
    WeekdayStep(Ordinal(d));
  }

  lemma WeekdayStep(o: int)
    ensures (o + 1 + 6) % 7 == ((o + 6) % 7 + 1) % 7
  {
    var q := (o + 6) / 7;
    assert o + 6 == 7 * q + (o + 6) % 7;
    if (o + 6) % 7 == 6 {
      assert o + 7 == 7 * (q + 1);
    } else {
      assert o + 7 == 7 * q + ((o + 6) % 7 + 1);
    }
  }

  /** The first day of the calendar was a Monday. */
  lemma WeekdayFirstDay()
    ensures Weekday(Date(1, 1, 1)) == 0
  {
  }

  /**
   * `datetime.strptime(date, '%Y-%m-%d').strftime('%A')`, or "Unknown" when
   * the text is not a date.
   */
  function DayOfWeek(date: string): (r: string)
    ensures StrptimeDate(date).None? <==> r == "Unknown"
  {
    match StrptimeDate(date)
    case None => "Unknown"
    case Some(d) => DayName(Weekday(d))
  }
}
