/** time.Time: an instant and the offset from UTC at which its Location shows it; the proleptic Gregorian calendar;
    and the layout "20060102T150405.000" in which upgrade events are named. The layout carries no offset. */
module GoTime {
  import opened Prelude

  /** Nanoseconds since the zero time, which is the start of year 1 in UTC, and seconds east of UTC. */
  datatype Time = Time(instant: int, offset: int)

  predicate IsZero(t: Time) { t.instant == 0 }

  /** Comparisons are of instants. */
  predicate Before(s: Time, t: Time) { s.instant < t.instant }

  const NANOS_PER_SECOND: nat := 1000000000
  const NANOS_PER_MILLI: nat := 1000000
  const MILLIS_PER_DAY: nat := 86400000

  /** Milliseconds since the start of year 1 on the wall clock that the time shows. */
  function WallMillis(t: Time): int { (t.instant + t.offset * NANOS_PER_SECOND) / NANOS_PER_MILLI }

  /** The wall clock is the instant's own millisecond, moved by the offset. */
  lemma WallMillisMeans(t: Time)
    ensures WallMillis(t) == t.instant / NANOS_PER_MILLI + 1000 * t.offset
  {
    var m, r := t.instant / NANOS_PER_MILLI, t.instant % NANOS_PER_MILLI;
    assert t.instant + t.offset * NANOS_PER_SECOND == (m + 1000 * t.offset) * NANOS_PER_MILLI + r;
  }

  predicate IsLeap(y: nat) { y % 4 == 0 && (y % 100 != 0 || y % 400 == 0) }

  function DaysInYear(y: nat): nat { if IsLeap(y) then 366 else 365 }

  function DaysInMonth(y: nat, m: nat): nat {
    if m == 2 then (if IsLeap(y) then 29 else 28)
    else if m == 4 || m == 6 || m == 9 || m == 11 then 30 else 31
  }

  datatype Date = Date(year: int, month: nat, day: nat)

  /** Years from y0 on, counting `day` days from the start of y0. */
  function YearOf(day: nat, y0: nat): (y: nat)
    ensures y >= y0
    decreases day
  {
    if day < DaysInYear(y0) then y0 else YearOf(day - DaysInYear(y0), y0 + 1)
  }

  function DayOfYear(day: nat, y0: nat): (d: nat)
    ensures d < 366
    decreases day
  {
    if day < DaysInYear(y0) then day else DayOfYear(day - DaysInYear(y0), y0 + 1)
  }

  /** Month and day of month, counting `day` days from the start of month m of year y. */
  function MonthDay(y: nat, m: nat, day: nat): (r: (nat, nat))
    requires 1 <= m <= 12
    ensures m <= r.0 <= 12
    decreases 12 - m
  {
    if m == 12 || day < DaysInMonth(y, m) then (m, day + 1) else MonthDay(y, m + 1, day - DaysInMonth(y, m))
  }

  /** Days of 400 years, after which the calendar repeats. */
  const DAYS_PER_CYCLE: nat := 146097

  /** The date of a day counted from the start of year 1, before it as well as after. */
  function DateOf(day: int): Date {
    var d: nat := day % DAYS_PER_CYCLE;
    var y := YearOf(d, 1);
    var md := MonthDay(y, 1, DayOfYear(d, 1));
    Date(y + 400 * (day / DAYS_PER_CYCLE), md.0, md.1)
  }

  // The inverse: count the days back.

  function DaysBefore(y: nat, y0: nat): nat
    requires y >= y0
    decreases y - y0
  {
    if y == y0 then 0 else DaysInYear(y0) + DaysBefore(y, y0 + 1)
  }

  function DaysBeforeMonth(y: nat, m: nat, m0: nat): nat
    requires m0 <= m
    decreases m - m0
  {
    if m == m0 then 0 else DaysInMonth(y, m0) + DaysBeforeMonth(y, m, m0 + 1)
  }

  lemma {:induction false} YearRoundTrip(day: nat, y0: nat)
    ensures DaysBefore(YearOf(day, y0), y0) + DayOfYear(day, y0) == day
    decreases day
  {
    if day >= DaysInYear(y0) { YearRoundTrip(day - DaysInYear(y0), y0 + 1); }
  }

  lemma {:induction false} MonthRoundTrip(y: nat, m: nat, day: nat)
    requires 1 <= m <= 12
    ensures var r := MonthDay(y, m, day); r.1 >= 1 && DaysBeforeMonth(y, r.0, m) + r.1 - 1 == day
    decreases 12 - m
  {
    if m < 12 && day >= DaysInMonth(y, m) { MonthRoundTrip(y, m + 1, day - DaysInMonth(y, m)); }
  }

  /** Days of the years 1 to y - 1. */
  function DaysTo(y: nat): int
    requires y >= 1
  {
    365 * (y - 1) + (y - 1) / 4 - (y - 1) / 100 + (y - 1) / 400
  }

  lemma OneMoreYear(y: nat)
    requires y >= 1
    ensures DaysTo(y + 1) == DaysTo(y) + DaysInYear(y)
  {
    Every4(y);
    Every100(y);
    Every400(y);
    FoursAndHundreds(y);
  }

  // The quotients step at the multiples.

  lemma Every4(y: nat)
    requires y >= 1
    ensures y / 4 - (y - 1) / 4 == if y % 4 == 0 then 1 else 0
  {
  }

  lemma Every100(y: nat)
    requires y >= 1
    ensures y / 100 - (y - 1) / 100 == if y % 100 == 0 then 1 else 0
  {
  }

  lemma Every400(y: nat)
    requires y >= 1
    ensures y / 400 - (y - 1) / 400 == if y % 400 == 0 then 1 else 0
  {
  }

  lemma FoursAndHundreds(y: nat)
    ensures y % 100 == 0 ==> y % 4 == 0
    ensures y % 400 == 0 ==> y % 100 == 0
  {
    if y % 100 == 0 { FourTimes(y, 25 * (y / 100)); }
    if y % 400 == 0 { HundredTimes(y, 4 * (y / 400)); }
  }

  lemma FourTimes(y: nat, q: nat)
    requires y == 4 * q
    ensures y % 4 == 0
  {
  }

  lemma HundredTimes(y: nat, q: nat)
    requires y == 100 * q
    ensures y % 100 == 0
  {
  }

  lemma {:induction false} DaysBeforeMeans(y: nat, y0: nat)
    requires y >= y0 >= 1
    ensures DaysBefore(y, y0) == DaysTo(y) - DaysTo(y0)
    decreases y - y0
  {
    if y > y0 {
      DaysBeforeMeans(y, y0 + 1);
      OneMoreYear(y0);
    }
  }

  lemma {:induction false} DaysToIncreases(y: nat, z: nat)
    requires 1 <= y <= z
    ensures DaysTo(y) <= DaysTo(z)
    decreases z
  {
    if y < z {
      DaysToIncreases(y, z - 1);
      OneMoreYear(z - 1);
    }
  }

  /** A cycle has 400 years. */
  lemma CycleYears(d: nat)
    requires d < DAYS_PER_CYCLE
    ensures 1 <= YearOf(d, 1) <= 400
  {
    var y := YearOf(d, 1);
    YearRoundTrip(d, 1);
    DaysBeforeMeans(y, 1);
    if y > 400 { DaysToIncreases(401, y); }
  }

  /** Within a cycle year, month and day determine the day, */
  lemma CycleDateInjective(c: nat, d: nat)
    requires YearOf(c, 1) == YearOf(d, 1)
    requires MonthDay(YearOf(c, 1), 1, DayOfYear(c, 1)) == MonthDay(YearOf(d, 1), 1, DayOfYear(d, 1))
    ensures c == d
  {
    YearRoundTrip(c, 1);
    YearRoundTrip(d, 1);
    MonthRoundTrip(YearOf(c, 1), 1, DayOfYear(c, 1));
    MonthRoundTrip(YearOf(d, 1), 1, DayOfYear(d, 1));
  }

  /** and the year determines the cycle. */
  lemma CycleOfYear(y: int, p: int, z: int, q: int)
    requires 1 <= y <= 400 && 1 <= z <= 400 && y + 400 * p == z + 400 * q
    ensures y == z && p == q
  {
  }

  /** Different days have different dates. */
  lemma DateInjective(a: int, b: int)
    requires DateOf(a) == DateOf(b)
    ensures a == b
  {
    hide YearOf, DayOfYear, MonthDay;
    var c: nat, d: nat := a % DAYS_PER_CYCLE, b % DAYS_PER_CYCLE;
    CycleYears(c);
    CycleYears(d);
    CycleOfYear(YearOf(c, 1), a / DAYS_PER_CYCLE, YearOf(d, 1), b / DAYS_PER_CYCLE);
    CycleDateInjective(c, d);
  }

  lemma {:induction false} MonthDayBounds(y: nat, m: nat, day: nat)
    requires 1 <= m <= 12 && day < DaysLeft(y, m)
    ensures MonthDay(y, m, day).1 <= 31
    decreases 12 - m
  {
    if m < 12 && day >= DaysInMonth(y, m) { MonthDayBounds(y, m + 1, day - DaysInMonth(y, m)); }
  }

  function DaysLeft(y: nat, m: nat): nat
    requires 1 <= m <= 12
    decreases 12 - m
  {
    if m == 12 then 31 else DaysInMonth(y, m) + DaysLeft(y, m + 1)
  }

  lemma YearHasItsMonths(y: nat)
    ensures DaysLeft(y, 1) == DaysInYear(y)
  {
    assert DaysLeft(y, 11) == 61;
    assert DaysLeft(y, 9) == 122;
    assert DaysLeft(y, 7) == 184;
    assert DaysLeft(y, 5) == 245;
    assert DaysLeft(y, 3) == 306;
  }

  lemma {:induction false} DayOfYearInYear(day: nat, y0: nat)
    ensures DayOfYear(day, y0) < DaysInYear(YearOf(day, y0))
    decreases day
  {
    if day >= DaysInYear(y0) { DayOfYearInYear(day - DaysInYear(y0), y0 + 1); }
  }

  lemma DateBounds(day: int)
    ensures var d := DateOf(day); 1 <= d.month <= 12 && 1 <= d.day <= 31
  {
    var d: nat := day % DAYS_PER_CYCLE;
    DayOfYearInYear(d, 1);
    YearHasItsMonths(YearOf(d, 1));
    MonthDayBounds(YearOf(d, 1), 1, DayOfYear(d, 1));
    MonthRoundTrip(YearOf(d, 1), 1, DayOfYear(d, 1));
  }

  // ---------------------------------------------------------------------
  // The layout
  // ---------------------------------------------------------------------

  /** Four digits at least; more from year 10000 on. */
  function YearDigits(y: nat): string { if y < 10000 then Padded(y, 4) else Decimal(y) }

  /** Years before year 0 carry a sign. */
  function YearText(y: int): string { if y < 0 then "-" + YearDigits(-y) else YearDigits(y) }

  /** Everything after the year: MMDD, T, hhmmss, a dot and three digits of milliseconds. */
  function RestText(d: Date, ms: nat): (s: string)
    ensures |s| == 15
  {
    Padded(d.month, 2) + Padded(d.day, 2) + "T" + Padded(ms / 3600000, 2) + Padded(ms / 60000 % 60, 2)
    + Padded(ms / 1000 % 60, 2) + "." + Padded(ms % 1000, 3)
  }

  function Format(t: Time): string {
    var d := DateOf(WallMillis(t) / MILLIS_PER_DAY);
    YearText(d.year) + RestText(d, WallMillis(t) % MILLIS_PER_DAY)
  }

  /** The year on the wall clock. */
  function Year(t: Time): int { DateOf(WallMillis(t) / MILLIS_PER_DAY).year }

  lemma {:induction false} DecimalLong(n: nat, w: nat)
    requires n >= Pow10(w)
    ensures |Decimal(n)| > w
  {
    if w > 0 { DecimalLong(n / 10, w - 1); }
  }

  lemma YearDigitsInjective(a: nat, b: nat)
    requires YearDigits(a) == YearDigits(b)
    ensures a == b
  {
    assert Pow10(4) == 10000 by { assert Pow10(2) == 100; }
    if a < 10000 && b < 10000 {
      PaddedInjective(a, b, 4);
    } else {
      if a >= 10000 { DecimalLong(a, 4); DecimalRoundTrip(a); }
      if b >= 10000 { DecimalLong(b, 4); DecimalRoundTrip(b); }
    }
  }

  lemma {:induction false} DecimalDigits(n: nat)
    ensures |Decimal(n)| > 0 && forall c :: c in Decimal(n) ==> '0' <= c <= '9'
  {
    if n >= 10 { DecimalDigits(n / 10); }
  }

  /** The digits do not begin with a sign. */
  lemma NoSign(y: nat)
    ensures |YearDigits(y)| >= 4 && YearDigits(y)[0] != '-'
  {
    if y < 10000 {
      assert Padded(y, 4)[0] in Padded(y, 4);
    } else {
      assert Pow10(3) == 1000 by { assert Pow10(2) == 100; }
      DecimalLong(y, 3);
      DecimalDigits(y);
      assert Decimal(y)[0] in Decimal(y);
    }
  }

  lemma YearTextInjective(a: int, b: int)
    requires YearText(a) == YearText(b)
    ensures a == b
  {
    var s, t := YearText(a), YearText(b);
    if a >= 0 { NoSign(a); } else { assert s[0] == '-' && s[1..] == YearDigits(-a); }
    if b >= 0 { NoSign(b); } else { assert t[0] == '-' && t[1..] == YearDigits(-b); }
    if a >= 0 && b >= 0 { YearDigitsInjective(a, b); }
    if a < 0 && b < 0 { YearDigitsInjective(-a, -b); }
  }

  lemma Pieces(d: Date, ms: nat)
    ensures var s := RestText(d, ms);
      && s[..2] == Padded(d.month, 2) && s[2..4] == Padded(d.day, 2) && s[5..7] == Padded(ms / 3600000, 2)
      && s[7..9] == Padded(ms / 60000 % 60, 2) && s[9..11] == Padded(ms / 1000 % 60, 2)
      && s[12..] == Padded(ms % 1000, 3)
  {
  }

  lemma RestTextInjective(d: Date, m: nat, e: Date, n: nat)
    requires d.month < 100 && d.day < 100 && e.month < 100 && e.day < 100
    requires m < MILLIS_PER_DAY && n < MILLIS_PER_DAY
    requires RestText(d, m) == RestText(e, n)
    ensures d.month == e.month && d.day == e.day && m == n
  {
    Pieces(d, m);
    Pieces(e, n);
    assert Pow10(2) == 100 && Pow10(3) == 1000;
    PaddedInjective(d.month, e.month, 2);
    PaddedInjective(d.day, e.day, 2);
    PaddedInjective(m / 3600000, n / 3600000, 2);
    PaddedInjective(m / 60000 % 60, n / 60000 % 60, 2);
    PaddedInjective(m / 1000 % 60, n / 1000 % 60, 2);
    PaddedInjective(m % 1000, n % 1000, 3);
    ClockParts(m);
    ClockParts(n);
  }

  lemma ClockParts(m: nat)
    ensures m == 3600000 * (m / 3600000) + 60000 * (m / 60000 % 60) + 1000 * (m / 1000 % 60) + m % 1000
  {
    var s, q := m / 1000, m / 60000;
    assert q == s / 60 && m / 3600000 == q / 60;
  }

  lemma Separators(d: Date, ms: nat)
    ensures RestText(d, ms)[4] == 'T' && RestText(d, ms)[11] == '.'
  {
  }

  lemma YearReads(y: int)
    ensures y >= 0 ==> ParseDecimal(YearText(y)) == y
    ensures y < 0 ==> YearText(y)[..1] == "-" && ParseDecimal(YearText(y)[1..]) == -y
  {
    var n := if y < 0 then -y else y;
    assert ParseDecimal(YearDigits(n)) == n by {
      if n < 10000 {
        assert Pow10(2) == 100 && Pow10(4) == 10000;
        PaddedParses(n, 4);
      } else {
        DecimalRoundTrip(n);
      }
    }
    hide YearDigits, ParseDecimal;
  }

  lemma RestReads(d: Date, ms: nat)
    requires d.month < 100 && d.day < 100 && ms < MILLIS_PER_DAY
    ensures var s := RestText(d, ms);
      && ParseDecimal(s[..2]) == d.month && ParseDecimal(s[2..4]) == d.day
      && ParseDecimal(s[5..7]) == ms / 3600000 && ParseDecimal(s[7..9]) == ms / 60000 % 60
      && ParseDecimal(s[9..11]) == ms / 1000 % 60 && ParseDecimal(s[12..]) == ms % 1000
  {
    Pieces(d, ms);
    assert Pow10(2) == 100 && Pow10(3) == 1000;
    PaddedParses(d.month, 2);
    PaddedParses(d.day, 2);
    PaddedParses(ms / 3600000, 2);
    PaddedParses(ms / 60000 % 60, 2);
    PaddedParses(ms / 1000 % 60, 2);
    PaddedParses(ms % 1000, 3);
    hide RestText, Padded, ParseDecimal, Pow10;
  }

  /** The text reads back: year, month, day, a T, hours, minutes, seconds, a dot, milliseconds, in decimal digits. */
  lemma FormatReadsBack(t: Time)
    ensures var s, day := Format(t), WallMillis(t) / MILLIS_PER_DAY;
      var n, d := |s| - 15, DateOf(day);
      && n >= 4 && s[n + 4] == 'T' && s[n + 11] == '.'
      && (d.year >= 0 ==> ParseDecimal(s[..n]) == d.year)
      && (d.year < 0 ==> s[0] == '-' && ParseDecimal(s[1..n]) == -d.year)
      && ParseDecimal(s[n..n + 2]) == d.month && ParseDecimal(s[n + 2..n + 4]) == d.day
      && var h, m := ParseDecimal(s[n + 5..n + 7]), ParseDecimal(s[n + 7..n + 9]);
         var sec, ms := ParseDecimal(s[n + 9..n + 11]), ParseDecimal(s[n + 12..]);
         0 <= h < 24 && 0 <= m < 60 && 0 <= sec < 60 && 0 <= ms < 1000
         && WallMillis(t) == MILLIS_PER_DAY * day + 3600000 * h + 60000 * m + 1000 * sec + ms
  {
    var s, day, ms := Format(t), WallMillis(t) / MILLIS_PER_DAY, WallMillis(t) % MILLIS_PER_DAY;
    var d := DateOf(day);
    var year, rest := YearText(d.year), RestText(d, ms);
    DateBounds(day);
    Separators(d, ms);
    YearReads(d.year);
    RestReads(d, ms);
    ClockParts(ms);
    hide DateOf, YearText, RestText, ParseDecimal, WallMillis;
    Joined(year, rest);
    assert |year| >= 4 by { YearLength(d.year); }
    assert year[1..] == s[1..|year|] && (d.year < 0 ==> year[..1][0] == '-');
  }

  lemma YearLength(y: int)
    ensures |YearText(y)| >= 4
  {
    if y >= 10000 { DecimalLong(y, 4); }
    if -y >= 10000 { DecimalLong(-y, 4); }
    assert Pow10(2) == 100 && Pow10(4) == 10000;
  }

  lemma Joined(year: string, rest: string)
    requires |rest| == 15
    ensures var s, n := year + rest, |year|;
      && s[..n] == year && s[n..n + 2] == rest[..2] && s[n + 2..n + 4] == rest[2..4] && s[n + 4] == rest[4]
      && s[n + 5..n + 7] == rest[5..7] && s[n + 7..n + 9] == rest[7..9] && s[n + 9..n + 11] == rest[9..11]
      && s[n + 11] == rest[11] && s[n + 12..] == rest[12..]
  {
  }

  /** The text is the wall clock up to the millisecond, in every year; the offset is not in it. */
  lemma FormatInjective(a: Time, b: Time)
    ensures Format(a) == Format(b) <==> WallMillis(a) == WallMillis(b)
  {
    if Format(a) == Format(b) { SameTextSameMillis(a, b); }
  }

  lemma SameTextSameMillis(a: Time, b: Time)
    requires Format(a) == Format(b)
    ensures WallMillis(a) == WallMillis(b)
  {
    var m, n := WallMillis(a), WallMillis(b);
    var da, db := DateOf(m / MILLIS_PER_DAY), DateOf(n / MILLIS_PER_DAY);
    var ma, mb := m % MILLIS_PER_DAY, n % MILLIS_PER_DAY;
    var ya, yb := YearText(da.year), YearText(db.year);
    assert |ya| == |yb|;
    assert ya == Format(a)[..|ya|] && yb == Format(b)[..|yb|];
    assert RestText(da, ma) == Format(a)[|ya|..] && RestText(db, mb) == Format(b)[|yb|..];
    YearTextInjective(da.year, db.year);
    DateBounds(m / MILLIS_PER_DAY);
    DateBounds(n / MILLIS_PER_DAY);
    RestTextInjective(da, ma, db, mb);
    DateInjective(m / MILLIS_PER_DAY, n / MILLIS_PER_DAY);
  }

  lemma {:induction false} DecimalShort(n: nat, w: nat)
    requires n < Pow10(w) && w > 0
    ensures |Decimal(n)| <= w
  {
    if n >= 10 { DecimalShort(n / 10, w - 1); }
  }

  lemma {:induction false} Pow10AtLeast(w: nat)
    requires w >= 4
    ensures Pow10(w) >= 10000
  {
    if w == 4 {
      assert Pow10(2) == 100;
    } else {
      Pow10AtLeast(w - 1);
    }
  }

  lemma YearDigitsLengthIff(y: nat, w: nat)
    requires w >= 4
    ensures |YearDigits(y)| >= 4 && (|YearDigits(y)| <= w <==> y < Pow10(w))
  {
    NoSign(y);
    Pow10AtLeast(w);
    if y >= 10000 {
      if y < Pow10(w) { DecimalShort(y, w); } else { DecimalLong(y, w); }
    }
  }

  /** The year takes at most w characters. */
  predicate YearFits(y: int, w: nat)
    requires w > 0
  {
    if y < 0 then -y < Pow10(w - 1) else y < Pow10(w)
  }

  /** The layout takes 15 characters and those of the year: its digits, but at least four, and a sign before year 0. */
  lemma FormatLengthIff(t: Time, w: nat)
    requires w >= 5
    ensures 19 <= |Format(t)|
    ensures |Format(t)| <= 15 + w <==> YearFits(Year(t), w)
    ensures 0 <= Year(t) < 10000 ==> |Format(t)| == 19
  {
    var y := Year(t);
    if y < 0 {
      YearDigitsLengthIff(-y, w - 1);
    } else {
      YearDigitsLengthIff(y, w);
    }
  }

  // ---------------------------------------------------------------------
  // Texts sort by time
  // ---------------------------------------------------------------------

  /** The days before each month of a common year; leap years have one more after February. */
  lemma MonthTable(y: nat)
    ensures var leap := if IsLeap(y) then 1 else 0;
      && DaysBeforeMonth(y, 1, 1) == 0 && DaysBeforeMonth(y, 2, 1) == 31
      && DaysBeforeMonth(y, 3, 1) == 59 + leap && DaysBeforeMonth(y, 4, 1) == 90 + leap
      && DaysBeforeMonth(y, 5, 1) == 120 + leap && DaysBeforeMonth(y, 6, 1) == 151 + leap
      && DaysBeforeMonth(y, 7, 1) == 181 + leap && DaysBeforeMonth(y, 8, 1) == 212 + leap
      && DaysBeforeMonth(y, 9, 1) == 243 + leap && DaysBeforeMonth(y, 10, 1) == 273 + leap
      && DaysBeforeMonth(y, 11, 1) == 304 + leap && DaysBeforeMonth(y, 12, 1) == 334 + leap
  {
    MonthSum(y, 2);
    MonthSum(y, 3);
    MonthSum(y, 4);
    MonthSum(y, 5);
    MonthSum(y, 6);
    MonthSum(y, 7);
    MonthSum(y, 8);
    MonthSum(y, 9);
    MonthSum(y, 10);
    MonthSum(y, 11);
    MonthSum(y, 12);
  }

  const MONTH_STARTS: seq<nat> := [0, 31, 59, 90, 120, 151, 181, 212, 243, 273, 304, 334]

  lemma MonthStart(y: nat, m: nat)
    requires 1 <= m <= 12
    ensures DaysBeforeMonth(y, m, 1) == MONTH_STARTS[m - 1] + if m > 2 && IsLeap(y) then 1 else 0
  {
    MonthTable(y);
  }

  // Four hundred years on, quotients move and remainders stay.

  lemma Cycle4(y: int, q: int)
    ensures (y + 400 * q) / 4 == y / 4 + 100 * q && (y + 400 * q) % 4 == y % 4
  {
  }

  lemma Cycle100(y: int, q: int)
    ensures (y + 400 * q) / 100 == y / 100 + 4 * q && (y + 400 * q) % 100 == y % 100
  {
  }

  lemma Cycle400(y: int, q: int)
    ensures (y + 400 * q) / 400 == y / 400 + q && (y + 400 * q) % 400 == y % 400
  {
  }

  /** Days of the years before year y + 1, and the leap rule. */
  function DaysOfYears(y: int): int { 365 * y + y / 4 - y / 100 + y / 400 }

  predicate LeapYear(y: int) { y % 4 == 0 && (y % 100 != 0 || y % 400 == 0) }

  lemma CyclesOfYears(y: int, q: int)
    ensures DaysOfYears(y + 400 * q) == DaysOfYears(y) + DAYS_PER_CYCLE * q
  {
    Cycle4(y, q);
    Cycle100(y, q);
    Cycle400(y, q);
  }

  lemma LeapRepeats(y: int, q: int)
    ensures LeapYear(y + 400 * q) == LeapYear(y)
  {
    Cycle4(y, q);
    Cycle100(y, q);
    Cycle400(y, q);
  }

  lemma CycleCalendar(c: nat)
    requires c < DAYS_PER_CYCLE
    ensures var y := YearOf(c, 1); var r := MonthDay(y, 1, DayOfYear(c, 1));
      && 1 <= y <= 400 && 1 <= r.0 <= 12
      && c == DaysOfYears(y - 1) + MONTH_STARTS[r.0 - 1] + (if r.0 > 2 && LeapYear(y) then 1 else 0) + r.1 - 1
  {
    var y := YearOf(c, 1);
    var r := MonthDay(y, 1, DayOfYear(c, 1));
    CycleYears(c);
    YearRoundTrip(c, 1);
    MonthRoundTrip(y, 1, DayOfYear(c, 1));
    DaysBeforeMeans(y, 1);
    MonthStart(y, r.0);
    hide YearOf, DayOfYear, MonthDay, DaysBefore, DaysBeforeMonth;
  }

  /** The calendar: a date stands for the days of the years before it, with a leap day every fourth year but three in
      four centuries, those of the months before it, and those of its month before it. */
  lemma CalendarIs(day: int)
    ensures var d := DateOf(day); var y := d.year - 1;
      && 1 <= d.month <= 12 && 1 <= d.day <= 31
      && day == 365 * y + y / 4 - y / 100 + y / 400 + MONTH_STARTS[d.month - 1]
                + (if d.month > 2 && d.year % 4 == 0 && (d.year % 100 != 0 || d.year % 400 == 0) then 1 else 0)
                + d.day - 1
  {
    var c: nat, q := day % DAYS_PER_CYCLE, day / DAYS_PER_CYCLE;
    DateBounds(day);
    CycleCalendar(c);
    CyclesOfYears(YearOf(c, 1) - 1, q);
    LeapRepeats(YearOf(c, 1), q);
    hide YearOf, DayOfYear, MonthDay;
  }

  lemma MonthSum(y: nat, m: nat)
    requires m >= 2
    ensures DaysBeforeMonth(y, m, 1) == DaysBeforeMonth(y, m - 1, 1) + DaysInMonth(y, m - 1)
  {
    MonthSumFrom(y, m, 1);
  }

  lemma {:induction false} MonthSumFrom(y: nat, m: nat, m0: nat)
    requires m0 < m
    ensures DaysBeforeMonth(y, m, m0) == DaysBeforeMonth(y, m - 1, m0) + DaysInMonth(y, m - 1)
    decreases m - m0
  {
    if m0 < m - 1 { MonthSumFrom(y, m, m0 + 1); }
  }

  lemma {:induction false} MonthsIncrease(y: nat, m: nat, n: nat)
    requires 1 <= m <= n
    ensures DaysBeforeMonth(y, m, 1) <= DaysBeforeMonth(y, n, 1)
    decreases n
  {
    if m < n {
      MonthsIncrease(y, m, n - 1);
      MonthSum(y, n);
    }
  }

  predicate DateLess(d: Date, e: Date) {
    d.year < e.year || (d.year == e.year && (d.month < e.month || (d.month == e.month && d.day < e.day)))
  }

  lemma {:induction false} DayInMonth(y: nat, m: nat, day: nat)
    requires 1 <= m <= 12 && day < DaysLeft(y, m)
    ensures var r := MonthDay(y, m, day); r.0 < 12 ==> r.1 <= DaysInMonth(y, r.0)
    decreases 12 - m
  {
    if m < 12 && day >= DaysInMonth(y, m) { DayInMonth(y, m + 1, day - DaysInMonth(y, m)); }
  }

  predicate MonthLess(r: (nat, nat), s: (nat, nat)) { r.0 < s.0 || (r.0 == s.0 && r.1 < s.1) }

  /** Within a cycle: an earlier date is an earlier day. */
  lemma CycleDateOrdered(c: nat, d: nat)
    requires var y, z := YearOf(c, 1), YearOf(d, 1);
      y < z || (y == z && MonthLess(MonthDay(y, 1, DayOfYear(c, 1)), MonthDay(z, 1, DayOfYear(d, 1))))
    ensures c < d
  {
    var y, z := YearOf(c, 1), YearOf(d, 1);
    YearRoundTrip(c, 1);
    YearRoundTrip(d, 1);
    DayOfYearInYear(c, 1);
    if y < z {
      EarlierYear(y, z);
    } else {
      DayOfYearOrdered(y, DayOfYear(c, 1), DayOfYear(d, 1));
    }
    hide YearOf, DayOfYear, MonthDay, DaysBefore;
  }

  lemma EarlierYear(y: nat, z: nat)
    requires 1 <= y < z
    ensures DaysBefore(y, 1) + DaysInYear(y) <= DaysBefore(z, 1)
  {
    DaysBeforeMeans(y, 1);
    DaysBeforeMeans(z, 1);
    OneMoreYear(y);
    DaysToIncreases(y + 1, z);
    hide DaysBefore, DaysInYear, DaysTo;
  }

  lemma DayOfYearOrdered(y: nat, a: nat, b: nat)
    requires a < DaysInYear(y)
    requires MonthLess(MonthDay(y, 1, a), MonthDay(y, 1, b))
    ensures a < b
  {
    var r, s := MonthDay(y, 1, a), MonthDay(y, 1, b);
    MonthRoundTrip(y, 1, a);
    MonthRoundTrip(y, 1, b);
    YearHasItsMonths(y);
    DayInMonth(y, 1, a);
    if r.0 < s.0 {
      MonthSum(y, r.0 + 1);
      MonthsIncrease(y, r.0 + 1, s.0);
    }
  }

  lemma CycleDates(c: nat)
    requires c < DAYS_PER_CYCLE
    ensures var r := MonthDay(YearOf(c, 1), 1, DayOfYear(c, 1)); DateOf(c) == Date(YearOf(c, 1), r.0, r.1)
  {
    assert c / DAYS_PER_CYCLE == 0 && c % DAYS_PER_CYCLE == c;
  }

  lemma DateSplit(a: int)
    ensures var c: nat := a % DAYS_PER_CYCLE;
      && DateOf(a) == DateOf(c).(year := DateOf(c).year + 400 * (a / DAYS_PER_CYCLE))
      && 1 <= DateOf(c).year <= 400
  {
    var c: nat := a % DAYS_PER_CYCLE;
    CycleYears(c);
    assert c / DAYS_PER_CYCLE == 0 && c % DAYS_PER_CYCLE == c;
  }

  /** Later days have later dates. */
  lemma DateOrdered(a: int, b: int)
    requires a < b
    ensures DateLess(DateOf(a), DateOf(b))
  {
    DateSplit(a);
    DateSplit(b);
    var c: nat, d: nat := a % DAYS_PER_CYCLE, b % DAYS_PER_CYCLE;
    if !DateLess(DateOf(a), DateOf(b)) {
      if DateOf(a) == DateOf(b) {
        DateInjective(a, b);
      } else {
        assert a / DAYS_PER_CYCLE == b / DAYS_PER_CYCLE;
        CycleDates(c);
        CycleDates(d);
        CycleDateOrdered(d, c);
      }
    }
  }

  /** The time of day, as the layout shows it. */
  function ClockText(ms: nat): string {
    Padded(ms / 3600000, 2) + Padded(ms / 60000 % 60, 2) + Padded(ms / 1000 % 60, 2) + "." + Padded(ms % 1000, 3)
  }

  lemma TextParts(y: nat, d: Date, ms: nat)
    requires y < 10000
    ensures YearText(y) + RestText(d, ms) ==
            Padded(y, 4) + (Padded(d.month, 2) + (Padded(d.day, 2) + ("T" + ClockText(ms))))
  {
  }

  /** Of two numbers with texts in front, the first decides unless they are equal. */
  lemma FieldOrdered(m: nat, n: nat, w: nat, x: string, y: string)
    requires m < Pow10(w) && n < Pow10(w) && (m < n || (m == n && LexLess(x, y)))
    ensures LexLess(Padded(m, w) + x, Padded(n, w) + y)
  {
    if m < n {
      PaddedOrdered(m, n, w);
      LexHead(Padded(m, w), Padded(n, w), x, y);
    } else {
      LexPrefix(Padded(m, w), x, y);
    }
  }

  lemma ClockFields(m: nat)
    requires m < MILLIS_PER_DAY
    ensures m / 3600000 < 24
    ensures m == 3600000 * (m / 3600000) + 60000 * (m / 60000 % 60) + 1000 * (m / 1000 % 60) + m % 1000
  {
    ClockParts(m);
  }

  lemma MixedRadix(h: nat, m: nat, s: nat, f: nat, i: nat, n: nat, t: nat, g: nat)
    requires m < 60 && s < 60 && f < 1000 && n < 60 && t < 60 && g < 1000
    requires 3600000 * h + 60000 * m + 1000 * s + f < 3600000 * i + 60000 * n + 1000 * t + g
    ensures h < i || (h == i && (m < n || (m == n && (s < t || (s == t && f < g)))))
  {
  }

  lemma ClockOrdered(m: nat, n: nat)
    requires m < n < MILLIS_PER_DAY
    ensures LexLess(ClockText(m), ClockText(n))
  {
    ClockFields(m);
    ClockFields(n);
    var mh, mm, ms, mt := m / 3600000, m / 60000 % 60, m / 1000 % 60, m % 1000;
    var nh, nm, ns, nt := n / 3600000, n / 60000 % 60, n / 1000 % 60, n % 1000;
    MixedRadix(mh, mm, ms, mt, nh, nm, ns, nt);
    FieldsOrdered(mh, mm, ms, mt, nh, nm, ns, nt);
    assert ClockText(m) == FieldText(mh, mm, ms, mt) && ClockText(n) == FieldText(nh, nm, ns, nt);
  }

  function FieldText(h: nat, m: nat, s: nat, f: nat): string {
    Padded(h, 2) + Padded(m, 2) + Padded(s, 2) + "." + Padded(f, 3)
  }

  lemma FieldsOrdered(h: nat, m: nat, s: nat, f: nat, i: nat, n: nat, t: nat, g: nat)
    requires h < 24 && m < 60 && s < 60 && f < 1000 && i < 24 && n < 60 && t < 60 && g < 1000
    requires h < i || (h == i && (m < n || (m == n && (s < t || (s == t && f < g)))))
    ensures LexLess(FieldText(h, m, s, f), FieldText(i, n, t, g))
  {
    assert Pow10(3) == 1000 by { assert Pow10(2) == 100; }
    assert Pow10(2) == 100;
    var u, v := "." + Padded(f, 3), "." + Padded(g, 3);
    if h == i && m == n && s == t {
      PaddedOrdered(f, g, 3);
      LexPrefix(".", Padded(f, 3), Padded(g, 3));
    }
    if h == i && m == n { FieldOrdered(s, t, 2, u, v); }
    if h == i { FieldOrdered(m, n, 2, Padded(s, 2) + u, Padded(t, 2) + v); }
    FieldOrdered(h, i, 2, Padded(m, 2) + (Padded(s, 2) + u), Padded(n, 2) + (Padded(t, 2) + v));
    assert FieldText(h, m, s, f) == Padded(h, 2) + (Padded(m, 2) + (Padded(s, 2) + u));
    assert FieldText(i, n, t, g) == Padded(i, 2) + (Padded(n, 2) + (Padded(t, 2) + v));
  }

  /** Dates first, then the time of day. */
  lemma TextOrdered(d: Date, m: nat, e: Date, n: nat)
    requires 0 <= d.year < 10000 && 0 <= e.year < 10000
    requires d.month < 100 && d.day < 100 && e.month < 100 && e.day < 100
    requires m < MILLIS_PER_DAY && n < MILLIS_PER_DAY
    requires DateLess(d, e) || (d == e && m < n)
    ensures LexLess(YearText(d.year) + RestText(d, m), YearText(e.year) + RestText(e, n))
  {
    TextParts(d.year, d, m);
    TextParts(e.year, e, n);
    hide YearText, RestText, ClockText;
    assert Pow10(2) == 100 && Pow10(4) == 10000 by { assert Pow10(2) == 100; }
    var x, y := "T" + ClockText(m), "T" + ClockText(n);
    if d == e {
      ClockOrdered(m, n);
      LexPrefix("T", ClockText(m), ClockText(n));
    }
    if d.year == e.year && d.month == e.month { FieldOrdered(d.day, e.day, 2, x, y); }
    if d.year == e.year { FieldOrdered(d.month, e.month, 2, Padded(d.day, 2) + x, Padded(e.day, 2) + y); }
    FieldOrdered(d.year, e.year, 4, Padded(d.month, 2) + (Padded(d.day, 2) + x),
                 Padded(e.month, 2) + (Padded(e.day, 2) + y));
  }

  lemma EarlierSortsFirst(a: Time, b: Time)
    requires 0 <= Year(a) < 10000 && 0 <= Year(b) < 10000 && WallMillis(a) < WallMillis(b)
    ensures LexLess(Format(a), Format(b))
  {
    var m, n := WallMillis(a), WallMillis(b);
    var p, q := m / MILLIS_PER_DAY, n / MILLIS_PER_DAY;
    DateBounds(p);
    DateBounds(q);
    if p < q { DateOrdered(p, q); }
    TextOrdered(DateOf(p), m % MILLIS_PER_DAY, DateOf(q), n % MILLIS_PER_DAY);
  }

  /** In four-digit years the texts sort as the wall clock does. */
  lemma FormatSortsByWallClock(a: Time, b: Time)
    requires 0 <= Year(a) < 10000 && 0 <= Year(b) < 10000
    ensures LexLess(Format(a), Format(b)) <==> WallMillis(a) < WallMillis(b)
  {
    if WallMillis(a) < WallMillis(b) {
      EarlierSortsFirst(a, b);
    } else if LexLess(Format(a), Format(b)) {
      FormatInjective(a, b);
      if WallMillis(b) < WallMillis(a) { EarlierSortsFirst(b, a); }
      LexIrreflexive(Format(a));
      if LexLess(Format(b), Format(a)) { LexTransitive(Format(a), Format(b), Format(a)); }
    }
  }
}
