/**
 * Calendar dates as Python's `datetime` holds them (years 1 to 9999), the
 * `strftime` layouts the repository uses, day steps (`± timedelta(days=1)`)
 * and `strptime(s, '%Y-%m-%d')`.
 */
module Calendar {
  import opened Common
  import opened Text

  datatype Date = Date(year: int, month: int, day: int)

  datatype DateTime = DateTime(date: Date, hour: int, minute: int, second: int)

  predicate IsLeap(y: int) {
    y % 4 == 0 && (y % 100 != 0 || y % 400 == 0)
  }

  function DaysInMonth(y: int, m: int): (n: int)
    requires 1 <= m <= 12
    ensures 28 <= n <= 31
  {
    if m == 2 then (if IsLeap(y) then 29 else 28)
    else if m == 4 || m == 6 || m == 9 || m == 11 then 30
    else 31
  }

  /** The dates `datetime.date` accepts. */
  predicate ValidDate(d: Date) {
    1 <= d.year <= 9999 && 1 <= d.month <= 12 && 1 <= d.day <= DaysInMonth(d.year, d.month)
  }

  predicate ValidDateTime(t: DateTime) {
    ValidDate(t.date) && 0 <= t.hour < 24 && 0 <= t.minute < 60 && 0 <= t.second < 60
  }

  /** Calendar order of valid dates. */
  predicate Before(a: Date, b: Date) {
    a.year < b.year || (a.year == b.year && (a.month < b.month || (a.month == b.month && a.day < b.day)))
  }

  /** `d - timedelta(days=1)`; `None` where Python raises OverflowError. */
  function PrevDay(d: Date): (r: Option<Date>)
    requires ValidDate(d)
    ensures r.None? <==> d == Date(1, 1, 1)
    ensures r.Some? ==> ValidDate(r.value) && Before(r.value, d)
  {
    if d.day > 1 then Some(Date(d.year, d.month, d.day - 1))
    else if d.month > 1 then Some(Date(d.year, d.month - 1, DaysInMonth(d.year, d.month - 1)))
    else if d.year > 1 then Some(Date(d.year - 1, 12, 31))
    else None
  }

  /** `d + timedelta(days=1)`; `None` where Python raises OverflowError. */
  function NextDay(d: Date): (r: Option<Date>)
    requires ValidDate(d)
    ensures r.None? <==> d == Date(9999, 12, 31)
    ensures r.Some? ==> ValidDate(r.value) && Before(d, r.value)
  {
    if d.day < DaysInMonth(d.year, d.month) then Some(Date(d.year, d.month, d.day + 1))
    else if d.month < 12 then Some(Date(d.year, d.month + 1, 1))
    else if d.year < 9999 then Some(Date(d.year + 1, 1, 1))
    else None
  }

  /** Stepping one day back and one day forward returns to the same date. */
  lemma NextOfPrev(d: Date)
    requires ValidDate(d) && d != Date(1, 1, 1)
    ensures PrevDay(d).Some? && NextDay(PrevDay(d).value) == Some(d)
  {
  }

  /** There is no date strictly between a date and the day before it. */
  lemma PrevDayIsAdjacent(d: Date, e: Date)
    requires ValidDate(d) && ValidDate(e) && PrevDay(d).Some?
    requires Before(PrevDay(d).value, e)
    ensures !Before(e, d)
  {
  }

  // ---------------------------------------------------------------------
  // strftime layouts
  // ---------------------------------------------------------------------

  /** `%Y`: the year in decimal (glibc does not pad years below 1000). */
  function YearText(y: nat): (s: string)
    ensures 1 <= |s| && AllDigits(s) && ParseDigits(s) == y
    ensures 1000 <= y <= 9999 ==> |s| == 4
  {
    if 1000 <= y <= 9999 then
      assert Pow10(3) == 1000 && Pow10(4) == 10000;
      DecimalLength(y, 4);
      Decimal(y)
    else Decimal(y)
  }

  /**
   * `strftime('%Y-%m-%d')`.  What the text holds is stated by
   * `IsoDateFields`, kept apart so that callers that only move the text
   * around do not pay for it.
   */
  function IsoDate(d: Date): string
    requires ValidDate(d)
  {
    Decimal(d.year)
    + ['-', DigitChar(d.month / 10), DigitChar(d.month % 10), '-', DigitChar(d.day / 10), DigitChar(d.day % 10)]
  }

  lemma IsoDateFields(d: Date)
    requires ValidDate(d)
    ensures var s := IsoDate(d);
      && 7 <= |s| && IsDigit(s[|s| - 1])
      && (1000 <= d.year ==> |s| == 10 && s[4] == '-' && s[7] == '-')
      && (1000 <= d.year ==> AllDigits(s[..4]) && ParseDigits(s[..4]) == d.year)
      && (1000 <= d.year ==> AllDigits(s[5..7]) && ParseDigits(s[5..7]) == d.month)
      && (1000 <= d.year ==> AllDigits(s[8..]) && ParseDigits(s[8..]) == d.day)
  {
    var s, y := IsoDate(d), Decimal(d.year);
    var m1, m0, d1, d0 := DigitChar(d.month / 10), DigitChar(d.month % 10), DigitChar(d.day / 10), DigitChar(d.day % 10);
    assert s == y + ['-', m1, m0, '-', d1, d0];
    if 1000 <= d.year {
      assert |y| == 4 by { assert y == YearText(d.year); }
      assert |s| == 10 && s[..4] == y;
      assert s[4] == '-' && s[5] == m1 && s[6] == m0;
      assert s[7] == '-' && s[8] == d1 && s[9] == d0;
      assert s[5..7] == [m1, m0];
      assert s[8..] == [d1, d0];
      TwoDigits(m1, m0);
      TwoDigits(d1, d0);
    }
  }

  /** `date.isoformat()`: `YYYY-MM-DD`, the year zero-padded to four digits whatever its size. */
  function IsoFormatDate(d: Date): (s: string)
    requires ValidDate(d)
    ensures |s| == 10 && s[4] == '-' && s[7] == '-'
    ensures AllDigits(s[..4]) && ParseDigits(s[..4]) == d.year
    ensures AllDigits(s[5..7]) && ParseDigits(s[5..7]) == d.month
    ensures AllDigits(s[8..]) && ParseDigits(s[8..]) == d.day
  {
    assert Pow10(4) == 10000 && Pow10(2) == 100;
    var y, m, dd := ZeroPadded(d.year, 4), ZeroPadded(d.month, 2), ZeroPadded(d.day, 2);
    var s := y + "-" + m + "-" + dd;
    assert s[..4] == y && s[5..7] == m && s[8..] == dd;
    s
  }

  /**
   * From year 1000 on, `isoformat()` and `strftime('%Y-%m-%d')` write the
   * same text; below it only `isoformat()` pads the year.
   */
  lemma IsoFormatDateIsIsoDate(d: Date)
    requires ValidDate(d)
    ensures 1000 <= d.year ==> IsoFormatDate(d) == IsoDate(d)
    ensures d.year < 1000 ==> |IsoDate(d)| < 10
  {
    var f, s := IsoFormatDate(d), IsoDate(d);
    if 1000 <= d.year {
      IsoDateFields(d);
      DigitsDetermined(f[..4], s[..4]);
      DigitsDetermined(f[5..7], s[5..7]);
      DigitsDetermined(f[8..], s[8..]);
      assert f == f[..4] + "-" + f[5..7] + "-" + f[8..];
      assert s == s[..4] + "-" + s[5..7] + "-" + s[8..];
    } else {
      assert Pow10(1) == 10 && Pow10(2) == 100 && Pow10(3) == 1000;
      if d.year < 10 {
        DecimalLength(d.year, 1);
      } else if d.year < 100 {
        DecimalLength(d.year, 2);
      } else {
        DecimalLength(d.year, 3);
      }
    }
  }

  /** `strftime('%Y/%m/%d')`. */
  function SlashDate(d: Date): string
    requires ValidDate(d)
  {
    Decimal(d.year)
    + ['/', DigitChar(d.month / 10), DigitChar(d.month % 10), '/', DigitChar(d.day / 10), DigitChar(d.day % 10)]
  }

  /** `%Y/%m/%d` is `%Y-%m-%d` with its dashes turned into slashes. */
  lemma SlashDateIsIsoDateWithSlashes(d: Date)
    requires ValidDate(d)
    ensures SlashDate(d) == ReplaceChar(IsoDate(d), '-', '/')
  {
    var m1, m0, d1, d0 := DigitChar(d.month / 10), DigitChar(d.month % 10), DigitChar(d.day / 10), DigitChar(d.day % 10);
    DashesToSlashes(Decimal(d.year), m1, m0, d1, d0);
  }

  /** Turning dashes into slashes in digits joined by dashes leaves the digits alone. */
  lemma DashesToSlashes(y: string, m1: char, m0: char, d1: char, d0: char)
    requires AllDigits(y) && IsDigit(m1) && IsDigit(m0) && IsDigit(d1) && IsDigit(d0)
    ensures ReplaceChar(y + ['-', m1, m0, '-', d1, d0], '-', '/') == y + ['/', m1, m0, '/', d1, d0]
  {
    var iso := y + ['-', m1, m0, '-', d1, d0];
    var r := ReplaceChar(iso, '-', '/');
    var n := |y|;
    forall i | 0 <= i < n ensures r[i] == y[i] {
      assert iso[i] == y[i] && IsDigit(y[i]);
    }
    assert iso[n] == '-' && iso[n + 1] == m1 && iso[n + 2] == m0;
    assert iso[n + 3] == '-' && iso[n + 4] == d1 && iso[n + 5] == d0;
    assert r[..n] == y;
    assert r[n..] == ['/', m1, m0, '/', d1, d0];
    assert r == r[..n] + r[n..];
  }

  /**
   * `strftime('%d/%m/%Y')`.  What the text holds is stated by
   * `DmyDateFields`, kept apart so that callers that only move the text
   * around do not pay for it.
   */
  function DmyDate(d: Date): string
    requires ValidDate(d)
  {
    [DigitChar(d.day / 10), DigitChar(d.day % 10), '/', DigitChar(d.month / 10), DigitChar(d.month % 10), '/']
    + Decimal(d.year)
  }

  /** `%d/%m/%Y` reads back: day, month and year sit in their slices, and nothing but digits and `/` appears. */
  lemma DmyDateFields(d: Date)
    requires ValidDate(d)
    ensures var s := DmyDate(d);
      && 7 <= |s| && s[2] == '/' && s[5] == '/'
      && (1000 <= d.year ==> |s| == 10)
      && AllDigits(s[..2]) && ParseDigits(s[..2]) == d.day
      && AllDigits(s[3..5]) && ParseDigits(s[3..5]) == d.month
      && AllDigits(s[6..]) && ParseDigits(s[6..]) == d.year
      && (forall i :: 0 <= i < |s| ==> IsDigit(s[i]) || s[i] == '/')
  {
    var s := DmyDate(d);
    assert s[6..] == Decimal(d.year) == YearText(d.year);
    assert s[..2][..1] == [s[0]] && s[3..5][..1] == [s[3]];
    assert ParseDigits([s[0]]) == d.day / 10 by { assert [s[0]][..0] == []; }
    assert ParseDigits([s[3]]) == d.month / 10 by { assert [s[3]][..0] == []; }
  }

  /** `strftime('%H:%M:%S')`. */
  function ClockText(t: DateTime): (s: string)
    requires ValidDateTime(t)
    ensures |s| == 8 && s[2] == ':' && s[5] == ':'
    ensures AllDigits(s[..2]) && ParseDigits(s[..2]) == t.hour
    ensures AllDigits(s[3..5]) && ParseDigits(s[3..5]) == t.minute
    ensures AllDigits(s[6..]) && ParseDigits(s[6..]) == t.second
  {
    var hh, mm, ss := ZeroPadded(t.hour, 2), ZeroPadded(t.minute, 2), ZeroPadded(t.second, 2);
    var s := hh + ":" + mm + ":" + ss;
    assert s[..2] == hh && s[3..5] == mm && s[6..] == ss;
    s
  }

  /** Two valid dates with the same `%d/%m/%Y` text are the same date. */
  lemma DmyDateInjective(a: Date, b: Date)
    requires ValidDate(a) && ValidDate(b) && DmyDate(a) == DmyDate(b)
    ensures a == b
  {
    DmyDateFields(a);
    DmyDateFields(b);
    var s := DmyDate(a);
    assert ParseDigits(s[..2]) == a.day == b.day;
    assert ParseDigits(s[3..5]) == a.month == b.month;
    assert ParseDigits(s[6..]) == a.year == b.year;
  }

  // ---------------------------------------------------------------------
  // strptime(s, '%Y-%m-%d')
  // ---------------------------------------------------------------------

  predicate NonZeroDigit(c: char) {
    '1' <= c <= '9'
  }

  /**
   * The `%m` group of `strptime` at index `i`, which must be followed by
   * `'-'`: the alternatives `1[0-2]`, `0[1-9]`, `[1-9]` in that order.
   * Gives the month and the index just past it.
   */
  function MonthField(s: string, i: nat): (r: Option<(int, nat)>)
    ensures r.Some? ==> 1 <= r.value.0 <= 12 && i < r.value.1 < |s| && s[r.value.1] == '-'
  {
    if i + 2 < |s| && s[i] == '1' && '0' <= s[i + 1] <= '2' && s[i + 2] == '-' then
      Some((10 + DigitValue(s[i + 1]), i + 2))
    else if i + 2 < |s| && s[i] == '0' && NonZeroDigit(s[i + 1]) && s[i + 2] == '-' then
      Some((DigitValue(s[i + 1]), i + 2))
    else if i + 1 < |s| && NonZeroDigit(s[i]) && s[i + 1] == '-' then
      Some((DigitValue(s[i]), i + 1))
    else None
  }

  /**
   * The `%d` group of `strptime` at index `i`: the first of the alternatives
   * `3[01]`, `[12]\d`, `0[1-9]`, `[1-9]`, ` [1-9]` that matches.  Gives the
   * day and the index just past it.
   */
  function DayField(s: string, i: nat): (r: Option<(int, nat)>)
    ensures r.Some? ==> 1 <= r.value.0 <= 31 && i < r.value.1 <= |s|
  {
    if i + 1 < |s| && s[i] == '3' && (s[i + 1] == '0' || s[i + 1] == '1') then
      Some((30 + DigitValue(s[i + 1]), i + 2))
    else if i + 1 < |s| && (s[i] == '1' || s[i] == '2') && IsDigit(s[i + 1]) then
      Some((10 * DigitValue(s[i]) + DigitValue(s[i + 1]), i + 2))
    else if i + 1 < |s| && s[i] == '0' && NonZeroDigit(s[i + 1]) then
      Some((DigitValue(s[i + 1]), i + 2))
    else if i < |s| && NonZeroDigit(s[i]) then
      Some((DigitValue(s[i]), i + 1))
    else if i + 1 < |s| && s[i] == ' ' && NonZeroDigit(s[i + 1]) then
      Some((DigitValue(s[i + 1]), i + 2))
    else None
  }

  /**
   * `datetime.strptime(s, '%Y-%m-%d')` reduced to its date; `None` where it
   * raises ValueError (no match, unconverted data left, or no such date).
   */
  function ParseIsoDate(s: string): (r: Option<Date>)
    ensures r.Some? ==> ValidDate(r.value)
  {
    if |s| < 5 || !AllDigits(s[..4]) || s[4] != '-' then None
    else
      match MonthField(s, 5)
      case None => None
      case Some(mf) =>
        match DayField(s, mf.1 + 1)
        case None => None
        case Some(df) =>
          var d := Date(ParseDigits(s[..4]), mf.0, df.0);
          if df.1 == |s| && ValidDate(d) then Some(d) else None
  }

  /** Two digits read as a number. */
  lemma TwoDigits(a: char, b: char)
    requires IsDigit(a) && IsDigit(b)
    ensures ParseDigits([a, b]) == 10 * DigitValue(a) + DigitValue(b)
  {
    assert [a][..0] == [];
    assert ParseDigits([a]) == DigitValue(a);
    assert [a, b][..1] == [a];
    assert ParseDigits([a, b]) == 10 * ParseDigits([a]) + DigitValue(b);
  }

  /** The `%m` group reads a zero-padded month followed by `'-'`. */
  lemma MonthFieldPadded(s: string, i: nat, m: int)
    requires 1 <= m <= 12 && i + 2 < |s| && s[i + 2] == '-'
    requires AllDigits(s[i..i + 2]) && ParseDigits(s[i..i + 2]) == m
    ensures MonthField(s, i) == Some((m, i + 2))
  {
    assert s[i..i + 2] == [s[i], s[i + 1]];
    TwoDigits(s[i], s[i + 1]);
  }

  /** The `%d` group reads a zero-padded day. */
  lemma DayFieldPadded(s: string, i: nat, d: int)
    requires 1 <= d <= 31 && i + 2 <= |s|
    requires AllDigits(s[i..i + 2]) && ParseDigits(s[i..i + 2]) == d
    ensures DayField(s, i) == Some((d, i + 2))
  {
    assert s[i..i + 2] == [s[i], s[i + 1]];
    TwoDigits(s[i], s[i + 1]);
  }

  /** What `strftime('%Y-%m-%d')` writes, `strptime` reads back. */
  lemma IsoDateRoundTrip(d: Date)
    requires ValidDate(d) && 1000 <= d.year
    ensures ParseIsoDate(IsoDate(d)) == Some(d)
  {
    var s := IsoDate(d);
    IsoDateFields(d);
    MonthFieldPadded(s, 5, d.month);
    assert s[8..10] == s[8..];
    DayFieldPadded(s, 8, d.day);
  }
}
