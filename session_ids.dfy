/**
 * The session identifier the manager's `GET /log` route builds:
 * `{app_name}-{now:%Y%m%d%H%m%S}-{randint(0, 1000000):07d}`.
 * The clock reading and the random draw are parameters.
 */
module SessionIds {
  import opened Text
  import opened Calendar

  /** `random.randint(0, 1000000)` draws from 0 to 1000000, both included. */
  const DrawMax: nat := 1000000

  predicate ValidDraw(draw: nat) {
    draw <= DrawMax
  }

  /** The random suffix, `:07d`. */
  function Suffix(draw: nat): (s: string)
    requires ValidDraw(draw)
    ensures |s| == 7 && AllDigits(s) && ParseDigits(s) == draw
  {
    assert Pow10(7) == 10000000;
    ZeroPadded(draw, 7)
  }

  /** The pattern `'%Y%m%d%H%m%S'` as the route writes it: `%m` where minutes belong. */
  function StampAsWritten(t: DateTime): string
    requires ValidDateTime(t)
  {
    YearText(t.date.year) + ZeroPadded(t.date.month, 2) + ZeroPadded(t.date.day, 2)
      + ZeroPadded(t.hour, 2) + ZeroPadded(t.date.month, 2) + ZeroPadded(t.second, 2)
  }

  /** The session id as the route builds it. */
  function SessionId(appName: string, now: DateTime, draw: nat): string
    requires ValidDateTime(now) && ValidDraw(draw)
  {
    appName + "-" + StampAsWritten(now) + "-" + Suffix(draw)
  }

  /**
   * The layout of an id: the app name, a dash, a 14-digit stamp, a dash and
   * the 7-digit suffix, so `|app_name| + 23` characters.  The suffix reads
   * back as the draw and dropping the last 23 characters gives back the app
   * name, dashes in it or not.
   */
  lemma SessionIdLayout(appName: string, now: DateTime, draw: nat)
    requires ValidDateTime(now) && ValidDraw(draw) && 1000 <= now.date.year
    ensures var id := SessionId(appName, now, draw);
      && |id| == |appName| + 23
      && id[..|id| - 23] == appName
      && id[|appName|] == '-' && id[|appName| + 15] == '-'
      && AllDigits(id[|appName| + 1..|appName| + 15])
      && AllDigits(id[|id| - 7..]) && ParseDigits(id[|id| - 7..]) == draw
  {
    var id := SessionId(appName, now, draw);
    var stamp := StampAsWritten(now);
    assert |stamp| == 14;
    assert id == appName + "-" + stamp + "-" + Suffix(draw);
    assert id[..|id| - 23] == appName;
    assert id[|appName| + 1..|appName| + 15] == stamp;
    assert id[|id| - 7..] == Suffix(draw);
  }

  /** Characters 11-12 of the stamp repeat characters 5-6: the month, twice. */
  lemma MonthRepeated(now: DateTime)
    requires ValidDateTime(now) && 1000 <= now.date.year
    ensures var s := StampAsWritten(now);
      |s| == 14 && s[10..12] == s[4..6] && ParseDigits(s[10..12]) == now.date.month
  {
    var s := StampAsWritten(now);
    var m := ZeroPadded(now.date.month, 2);
    assert s[4..6] == m && s[10..12] == m;
  }

  /** The minute of the clock never reaches the id. */
  lemma MinuteNotEncoded(appName: string, a: DateTime, b: DateTime, draw: nat)
    requires ValidDateTime(a) && ValidDateTime(b) && ValidDraw(draw)
    requires a.date == b.date && a.hour == b.hour && a.second == b.second
    ensures SessionId(appName, a, draw) == SessionId(appName, b, draw)
  {
  }

  /** Two sessions opened forty minutes apart with the same draw get the same id. */
  lemma MinuteCollision()
    ensures var a := DateTime(Date(2024, 3, 15), 10, 5, 7);
      var b := DateTime(Date(2024, 3, 15), 10, 45, 7);
      a != b && SessionId("TestApp", a, 42) == SessionId("TestApp", b, 42)
  {
    MinuteNotEncoded("TestApp", DateTime(Date(2024, 3, 15), 10, 5, 7),
      DateTime(Date(2024, 3, 15), 10, 45, 7), 42);
  }

  // ---------------------------------------------------------------------
  // The evidently intended pattern, '%Y%m%d%H%M%S'
  // ---------------------------------------------------------------------

  function IntendedStamp(t: DateTime): (s: string)
    requires ValidDateTime(t)
    ensures 1000 <= t.date.year ==> |s| == 14 && AllDigits(s)
  {
    YearText(t.date.year) + ZeroPadded(t.date.month, 2) + ZeroPadded(t.date.day, 2)
      + ZeroPadded(t.hour, 2) + ZeroPadded(t.minute, 2) + ZeroPadded(t.second, 2)
  }

  function IntendedSessionId(appName: string, now: DateTime, draw: nat): string
    requires ValidDateTime(now) && ValidDraw(draw)
  {
    appName + "-" + IntendedStamp(now) + "-" + Suffix(draw)
  }

  /** Every field of the clock reading can be read back from the intended stamp. */
  lemma IntendedStampFields(t: DateTime)
    requires ValidDateTime(t) && 1000 <= t.date.year
    ensures var s := IntendedStamp(t);
      && |s| == 14 && AllDigits(s)
      && ParseDigits(s[..4]) == t.date.year
      && ParseDigits(s[4..6]) == t.date.month
      && ParseDigits(s[6..8]) == t.date.day
      && ParseDigits(s[8..10]) == t.hour
      && ParseDigits(s[10..12]) == t.minute
      && ParseDigits(s[12..]) == t.second
  {
    var s := IntendedStamp(t);
    assert s[..4] == YearText(t.date.year);
    assert s[4..6] == ZeroPadded(t.date.month, 2);
    assert s[6..8] == ZeroPadded(t.date.day, 2);
    assert s[8..10] == ZeroPadded(t.hour, 2);
    assert s[10..12] == ZeroPadded(t.minute, 2);
    assert s[12..] == ZeroPadded(t.second, 2);
  }

  /**
   * With the intended pattern, one app's ids differ whenever the clock
   * readings (to the second) or the draws differ.
   */
  lemma IntendedSessionIdInjective(appName: string, a: DateTime, b: DateTime, ra: nat, rb: nat)
    requires ValidDateTime(a) && ValidDateTime(b) && ValidDraw(ra) && ValidDraw(rb)
    requires 1000 <= a.date.year && 1000 <= b.date.year
    requires IntendedSessionId(appName, a, ra) == IntendedSessionId(appName, b, rb)
    ensures a == b && ra == rb
  {
    var n := |appName|;
    var sa, sb := IntendedStamp(a), IntendedStamp(b);
    var id := IntendedSessionId(appName, a, ra);
    assert id[n + 1..n + 15] == sa;
    assert IntendedSessionId(appName, b, rb)[n + 1..n + 15] == sb;
    assert id[n + 16..] == Suffix(ra);
    assert IntendedSessionId(appName, b, rb)[n + 16..] == Suffix(rb);
    IntendedStampFields(a);
    IntendedStampFields(b);
  }
}
