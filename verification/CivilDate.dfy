/** Audit timestamps (src/logging.rs): days since the Unix epoch to a proleptic
  * Gregorian date, and the RFC 3339 text of an instant.
  */
module CivilDate {
  import opened Wrappers

  datatype Date = Date(year: int, month: int, day: int)

  function CivilFromDays(days: nat): Date {
    var shifted := days + 719_468;
    var era := shifted / 146_097;
    var dayOfEra := shifted % 146_097;
    var yearOfEra := YearOfEra(dayOfEra);
    var dayOfYear := dayOfEra - DaysBeforeYearOfEra(yearOfEra);
    var shiftedMonth := (5 * dayOfYear + 2) / 153;
    var day := dayOfYear - (153 * shiftedMonth + 2) / 5 + 1;
    var month := if shiftedMonth < 10 then shiftedMonth + 3 else shiftedMonth - 9;
    Date(yearOfEra + era * 400 + (if month <= 2 then 1 else 0), month, day)
  }

  function YearOfEra(dayOfEra: int): int {
    (dayOfEra - dayOfEra / 1_460 + dayOfEra / 36_524 - dayOfEra / 146_096) / 365
  }

  function DaysBeforeYearOfEra(yearOfEra: int): int {
    365 * yearOfEra + yearOfEra / 4 - yearOfEra / 100
  }

  // ---- The calendar, by RFC 3339 section 5.7 and Appendix C ----

  predicate IsLeap(year: int) {
    year % 4 == 0 && (year % 100 == 0 ==> year % 400 == 0)
  }

  function DaysInMonth(year: int, month: int): int {
    if month == 2 then (if IsLeap(year) then 29 else 28)
    else if month == 4 || month == 6 || month == 9 || month == 11 then 30
    else 31
  }

  predicate ValidDate(d: Date) {
    1 <= d.month <= 12 && 1 <= d.day <= DaysInMonth(d.year, d.month)
  }

  function NextDate(d: Date): Date {
    if d.day < DaysInMonth(d.year, d.month) then d.(day := d.day + 1)
    else if d.month < 12 then Date(d.year, d.month + 1, 1)
    else Date(d.year + 1, 1, 1)
  }

  /** The calendar counted day by day from the epoch. */
  function DateAfter(days: nat): Date {
    if days == 0 then Date(1970, 1, 1) else NextDate(DateAfter(days - 1))
  }

  // ---- Mixed-radix form of a day number ----

  /** March-based counting: 400-year eras, centuries, four-year cycles, years, days. */
  datatype Cycle = Cycle(era: int, century: int, olympiad: int, year: int, day: int)

  function MarchYear(c: Cycle): int {
    400 * c.era + 100 * c.century + 4 * c.olympiad + c.year
  }

  predicate ValidCycle(c: Cycle) {
    && 0 <= c.century < 4 && 0 <= c.olympiad < 25 && 0 <= c.year < 4
    && 0 <= c.day < (if LeapEnding(c) then 366 else 365)
  }

  /** The February which ends this March year has 29 days. */
  predicate LeapEnding(c: Cycle) {
    c.year == 3 && (c.olympiad == 24 ==> c.century == 3)
  }

  function DayOfEra(c: Cycle): int {
    36_524 * c.century + 1_461 * c.olympiad + 365 * c.year + c.day
  }

  function Least(a: int, b: int): int { if a < b then a else b }

  function SplitDays(days: nat): (c: Cycle)
    ensures ValidCycle(c)
    ensures c.era == (days + 719_468) / 146_097 && DayOfEra(c) == (days + 719_468) % 146_097
  {
    var shifted := days + 719_468;
    var dayOfEra := shifted % 146_097;
    var century := Least(dayOfEra / 36_524, 3);
    var inCentury := dayOfEra - 36_524 * century;
    var olympiad := Least(inCentury / 1_461, 24);
    var inOlympiad := inCentury - 1_461 * olympiad;
    var year := Least(inOlympiad / 365, 3);
    Cycle(shifted / 146_097, century, olympiad, year, inOlympiad - 365 * year)
  }

  function DayNumber(c: Cycle): int { 146_097 * c.era + DayOfEra(c) }

  lemma CycleBounds(c: Cycle)
    requires ValidCycle(c)
    ensures 0 <= DayOfEra(c) < 146_097
    ensures c.century < 3 ==> DayOfEra(c) - 36_524 * c.century < 36_524
    ensures DayOfEra(c) >= 36_524 * c.century
  {
  }

  /** Two valid cycles of the same day number agree. */
  lemma SplitUnique(c: Cycle, d: Cycle)
    requires ValidCycle(c) && ValidCycle(d) && DayNumber(c) == DayNumber(d)
    ensures c == d
  {
    CycleBounds(c);
    CycleBounds(d);
    assert c.era == d.era;
    assert c.century == d.century;
    assert c.olympiad == d.olympiad;
    assert c.year == d.year;
  }

  lemma Multiples(era: int, rest: int)
    ensures (400 * era + rest) % 4 == rest % 4
    ensures (400 * era + rest) % 100 == rest % 100
    ensures (400 * era + rest) % 400 == rest % 400
  {
    var y := 400 * era + rest;
    assert y - rest == 4 * (100 * era) == 100 * (4 * era) == 400 * era;
    assert y % 4 == rest % 4 by { assert y / 4 == 100 * era + rest / 4; }
    assert y % 100 == rest % 100 by { assert y / 100 == 4 * era + rest / 100; }
  }

  lemma LeapEndingIsLeap(c: Cycle)
    requires ValidCycle(c)
    ensures LeapEnding(c) <==> IsLeap(MarchYear(c) + 1)
  {
    var inEra := 100 * c.century + 4 * c.olympiad + c.year + 1;
    Multiples(c.era, inEra);
    assert inEra % 4 == 0 <==> c.year == 3;
    assert inEra % 100 == 0 <==> c.year == 3 && c.olympiad == 24;
    assert inEra % 400 == 0 <==> inEra == 400;
  }

  /** The closed form finds the year of the era. */
  lemma YearOfEraCorrect(c: Cycle)
    requires ValidCycle(c)
    ensures YearOfEra(DayOfEra(c)) == 100 * c.century + 4 * c.olympiad + c.year
    ensures DayOfEra(c) - DaysBeforeYearOfEra(100 * c.century + 4 * c.olympiad + c.year) == c.day
  {
    var doe, y := DayOfEra(c), 100 * c.century + 4 * c.olympiad + c.year;
    assert y / 4 == 25 * c.century + c.olympiad;
    assert y / 100 == c.century;
    var extra := 24 * c.century + c.olympiad + 365 * c.year + c.day;
    assert doe == 1_460 * (25 * c.century + c.olympiad) + extra;
    assert 0 <= extra < 2 * 1_460;
    assert doe / 1_460 == 25 * c.century + c.olympiad + (if extra >= 1_460 then 1 else 0);
    assert 0 <= doe <= 146_096;
    if doe == 146_096 {
      assert c.century == 3;
    } else {
      assert doe / 36_524 == c.century;
      assert doe / 146_096 == 0;
    }
  }

  // ---- March-based months ----

  /** Days before each March-based month. */
  function MonthStart(m: int): int { (153 * m + 2) / 5 }

  lemma MonthOfDay(day: int)
    requires 0 <= day < 366
    ensures var m := (5 * day + 2) / 153;
            0 <= m < 12 && MonthStart(m) <= day && (m < 11 ==> day < MonthStart(m + 1))
  {
  }

  function DateOfCycle(c: Cycle): Date {
    var m := (5 * c.day + 2) / 153;
    var month := if m < 10 then m + 3 else m - 9;
    Date(MarchYear(c) + (if month <= 2 then 1 else 0), month, c.day - MonthStart(m) + 1)
  }

  lemma CivilIsDateOfCycle(days: nat)
    ensures CivilFromDays(days) == DateOfCycle(SplitDays(days))
  {
    YearOfEraCorrect(SplitDays(days));
  }

  function Advance(c: Cycle): Cycle {
    if c.day < 364 || (c.day == 364 && LeapEnding(c)) then c.(day := c.day + 1)
    else if c.year < 3 then c.(year := c.year + 1, day := 0)
    else if c.olympiad < 24 then c.(olympiad := c.olympiad + 1, year := 0, day := 0)
    else if c.century < 3 then c.(century := c.century + 1, olympiad := 0, year := 0, day := 0)
    else Cycle(c.era + 1, 0, 0, 0, 0)
  }

  lemma AdvanceDayNumber(c: Cycle)
    requires ValidCycle(c)
    ensures DayNumber(Advance(c)) == DayNumber(c) + 1
  {
  }

  /** The length of each March-based month but the last, whose end is a year's end. */
  lemma MonthLength(year: int, m: int)
    requires 0 <= m < 11
    ensures var month := if m < 10 then m + 3 else m - 9;
            DaysInMonth(year, month) == MonthStart(m + 1) - MonthStart(m)
  {
  }

  lemma AdvanceIsNextDate(c: Cycle)
    requires ValidCycle(c)
    ensures ValidCycle(Advance(c)) && DateOfCycle(Advance(c)) == NextDate(DateOfCycle(c))
    ensures ValidDate(DateOfCycle(c))
  {
    MonthOfDay(c.day);
    if (5 * c.day + 2) / 153 < 11 {
      AdvanceBeforeFebruary(c);
    } else {
      AdvanceInFebruary(c);
    }
  }

  lemma AdvanceBeforeFebruary(c: Cycle)
    requires ValidCycle(c) && 0 <= (5 * c.day + 2) / 153 < 11 && c.day < MonthStart(11)
    ensures ValidCycle(Advance(c)) && DateOfCycle(Advance(c)) == NextDate(DateOfCycle(c))
    ensures ValidDate(DateOfCycle(c))
  {
    MonthOfDay(c.day);
    MonthOfDay(c.day + 1);
    MonthLength(DateOfCycle(c).year, (5 * c.day + 2) / 153);
  }

  lemma AdvanceInFebruary(c: Cycle)
    requires ValidCycle(c) && (5 * c.day + 2) / 153 == 11
    ensures ValidCycle(Advance(c)) && DateOfCycle(Advance(c)) == NextDate(DateOfCycle(c))
    ensures ValidDate(DateOfCycle(c))
  {
    LeapEndingIsLeap(c);
    assert DateOfCycle(c) == Date(MarchYear(c) + 1, 2, c.day - 336);
    if Advance(c).day == 0 {
      assert MarchYear(Advance(c)) == MarchYear(c) + 1;
    } else {
      MonthOfDay(c.day + 1);
    }
  }

  // ---- Main results ----

  lemma SplitNumber(days: nat)
    ensures DayNumber(SplitDays(days)) == days + 719_468
  {
  }

  lemma SplitAdvances(days: nat)
    ensures SplitDays(days + 1) == Advance(SplitDays(days))
  {
    var c := SplitDays(days);
    SplitNumber(days);
    SplitNumber(days + 1);
    AdvanceDayNumber(c);
    AdvanceIsNextDate(c);
    SplitUnique(Advance(c), SplitDays(days + 1));
  }

  /** Successor days have successor dates. */
  lemma CivilSuccessor(days: nat)
    ensures CivilFromDays(days + 1) == NextDate(CivilFromDays(days)) && ValidDate(CivilFromDays(days))
  {
    CivilIsDateOfCycle(days);
    CivilIsDateOfCycle(days + 1);
    SplitAdvances(days);
    AdvanceIsNextDate(SplitDays(days));
  }

  lemma CivilEpoch()
    ensures CivilFromDays(0) == Date(1970, 1, 1)
  {
    assert 719_468 / 146_097 == 4 && 719_468 % 146_097 == 135_080;
    assert YearOfEra(135_080) == 369;
  }

  predicate StepsTo(f: nat -> Date, n: nat) {
    f(n + 1) == NextDate(f(n)) && ValidDate(f(n))
  }

  lemma {:induction false} CountedFromEpoch(f: nat -> Date, days: nat)
    requires f(0) == Date(1970, 1, 1) && forall n: nat :: StepsTo(f, n)
    ensures f(days) == DateAfter(days) && ValidDate(f(days)) && f(days).year >= 1970
  {
    if days > 0 {
      CountedFromEpoch(f, days - 1);
      assert StepsTo(f, days - 1);
    }
    assert StepsTo(f, days);
  }

  /** The closed form is the calendar: it gives the date reached by counting days
    * from 1 January 1970. */
  lemma CivilIsCalendar(days: nat)
    ensures CivilFromDays(days) == DateAfter(days) && ValidDate(CivilFromDays(days))
    ensures CivilFromDays(days).year >= 1970
  {
    CivilEpoch();
    forall n: nat ensures StepsTo(CivilFromDays, n) {
      CivilSuccessor(n);
    }
    CountedFromEpoch(CivilFromDays, days);
  }

  function DaysBeforeYear(year: int): nat {
    if year <= 1970 then 0 else DaysBeforeYear(year - 1) + (if IsLeap(year - 1) then 366 else 365)
  }

  function DaysBeforeMonth(year: int, month: int): nat {
    if month <= 1 then 0 else DaysBeforeMonth(year, month - 1) + DaysInMonth(year, month - 1)
  }

  /** The day count of a date, month by month and year by year. */
  function DaysToDate(d: Date): int {
    DaysBeforeYear(d.year) + DaysBeforeMonth(d.year, d.month) + d.day - 1
  }

  lemma YearLength(year: int)
    ensures DaysBeforeMonth(year, 12) + DaysInMonth(year, 12) == if IsLeap(year) then 366 else 365
  {
    assert DaysBeforeMonth(year, 2) == 31;
    assert DaysBeforeMonth(year, 4) == DaysBeforeMonth(year, 2) + DaysInMonth(year, 2) + 31;
    assert DaysBeforeMonth(year, 6) == DaysBeforeMonth(year, 4) + 30 + 31;
    assert DaysBeforeMonth(year, 8) == DaysBeforeMonth(year, 6) + 30 + 31;
    assert DaysBeforeMonth(year, 10) == DaysBeforeMonth(year, 8) + 31 + 30;
    assert DaysBeforeMonth(year, 12) == DaysBeforeMonth(year, 10) + 31 + 30;
  }

  lemma NextDateCounts(d: Date)
    requires ValidDate(d) && d.year >= 1970
    ensures DaysToDate(NextDate(d)) == DaysToDate(d) + 1
  {
    YearLength(d.year);
  }

  lemma {:induction false} CalendarCountsBack(days: nat)
    ensures DateAfter(days).year >= 1970 && ValidDate(DateAfter(days)) && DaysToDate(DateAfter(days)) == days
  {
    if days > 0 {
      CalendarCountsBack(days - 1);
      NextDateCounts(DateAfter(days - 1));
    }
  }

  lemma CivilCountsBack(days: nat)
    ensures DaysToDate(CivilFromDays(days)) == days
  {
    CivilIsCalendar(days);
    CalendarCountsBack(days);
  }

  predicate Before(a: Date, b: Date) {
    a.year < b.year || (a.year == b.year && (a.month < b.month || (a.month == b.month && a.day < b.day)))
  }

  lemma {:induction false} MonthsMonotone(year: int, m: int, n: int)
    requires 1 <= m < n
    ensures DaysBeforeMonth(year, m) + DaysInMonth(year, m) <= DaysBeforeMonth(year, n)
    decreases n
  {
    if m < n - 1 {
      MonthsMonotone(year, m, n - 1);
    }
  }

  lemma {:induction false} YearsMonotone(y: int, z: int)
    requires 1970 <= y < z
    ensures DaysBeforeYear(y) + (if IsLeap(y) then 366 else 365) <= DaysBeforeYear(z)
    decreases z
  {
    if y < z - 1 {
      YearsMonotone(y, z - 1);
    }
  }

  lemma DayCountMonotone(a: Date, b: Date)
    requires ValidDate(a) && ValidDate(b) && a.year >= 1970 && Before(a, b)
    ensures DaysToDate(a) < DaysToDate(b)
  {
    if a.year == b.year {
      if a.month < b.month {
        MonthsMonotone(a.year, a.month, b.month);
      }
    } else {
      YearsMonotone(a.year, b.year);
      YearLength(a.year);
      if a.month < 12 {
        MonthsMonotone(a.year, a.month, 12);
      }
    }
  }

  /** The date and its day count are inverse to each other. */
  lemma CivilInverse(d: Date)
    requires ValidDate(d) && d.year >= 1970
    ensures DaysToDate(d) >= 0 && CivilFromDays(DaysToDate(d)) == d
  {
    var n := DaysToDate(d);
    var e := CivilFromDays(n);
    CivilIsCalendar(n);
    CivilCountsBack(n);
    if Before(d, e) {
      DayCountMonotone(d, e);
    } else if Before(e, d) {
      DayCountMonotone(e, d);
    }
  }

  /** Later days have later dates. */
  lemma CivilMonotone(m: nat, n: nat)
    requires m < n
    ensures Before(CivilFromDays(m), CivilFromDays(n))
  {
    var a, b := CivilFromDays(m), CivilFromDays(n);
    CivilIsCalendar(m);
    CivilIsCalendar(n);
    CivilCountsBack(m);
    CivilCountsBack(n);
    if Before(b, a) {
      DayCountMonotone(b, a);
    }
  }

  // ---- Timestamps ----

  function Digit(n: nat): char
    requires n < 10
  {
    '0' + n as char
  }

  /** Decimal digits. */
  function Decimal(n: nat): string {
    if n < 10 then [Digit(n)] else Decimal(n / 10) + [Digit(n % 10)]
  }

  function Zeros(n: nat): string { seq(n, _ => '0') }

  /** Decimal digits, padded with zeros on the left to at least `width`. */
  function Padded(n: nat, width: nat): string {
    var digits := Decimal(n);
    if |digits| < width then Zeros(width - |digits|) + digits else digits
  }

  function Join(parts: seq<string>): string {
    if parts == [] then "" else parts[0] + Join(parts[1..])
  }

  datatype Stamp = Stamp(year: nat, month: nat, day: nat, hour: nat, minute: nat, second: nat, millis: nat)

  function StampOf(unixMs: nat): Stamp {
    var seconds := unixMs / 1_000;
    var date := CivilFromDays(seconds / 86_400);
    var time := seconds % 86_400;
    CivilIsCalendar(seconds / 86_400);
    Stamp(date.year, date.month, date.day, time / 3_600, time % 3_600 / 60, time % 60, unixMs % 1_000)
  }

  function Parts(s: Stamp): seq<string> {
    [Padded(s.year, 4), "-", Padded(s.month, 2), "-", Padded(s.day, 2), "T", Padded(s.hour, 2), ":",
     Padded(s.minute, 2), ":", Padded(s.second, 2), ".", Padded(s.millis, 3), "Z"]
  }

  function FormatTimestamp(unixMs: nat): string {
    Join(Parts(StampOf(unixMs)))
  }

  /** The order of strings. */
  lemma {:induction false} LexSuffix(s: string, t: string, x: string, y: string)
    requires |s| == |t| && LexLess(s, t)
    ensures LexLess(s + x, t + y)
  {
    assert (s + x)[1..] == s[1..] + x && (t + y)[1..] == t[1..] + y;
    if s[0] == t[0] {
      LexSuffix(s[1..], t[1..], x, y);
    }
  }

  lemma {:induction false} LexPrefix(p: string, x: string, y: string)
    requires LexLess(x, y)
    ensures LexLess(p + x, p + y)
  {
    if p == [] {
      assert p + x == x && p + y == y;
    } else {
      assert (p + x)[1..] == p[1..] + x && (p + y)[1..] == p[1..] + y;
      LexPrefix(p[1..], x, y);
    }
  }

  /** Strings built from parts compare like their first differing part. */
  lemma {:induction false} JoinLess(a: seq<string>, b: seq<string>, k: nat)
    requires k < |a| && k < |b| && forall i :: 0 <= i < k ==> a[i] == b[i]
    requires |a[k]| == |b[k]| && LexLess(a[k], b[k])
    ensures LexLess(Join(a), Join(b))
    decreases k
  {
    if k == 0 {
      LexSuffix(a[0], b[0], Join(a[1..]), Join(b[1..]));
    } else {
      JoinLess(a[1..], b[1..], k - 1);
      LexPrefix(a[0], Join(a[1..]), Join(b[1..]));
    }
  }

  /** The last `width` decimal digits. */
  function FixedDigits(n: nat, width: nat): string {
    if width == 0 then [] else FixedDigits(n / 10, width - 1) + [Digit(n % 10)]
  }

  function Pow10(e: nat): nat { if e == 0 then 1 else 10 * Pow10(e - 1) }

  lemma {:induction false} FixedDigitsLess(m: nat, n: nat, width: nat)
    requires m < n < Pow10(width)
    ensures |FixedDigits(m, width)| == |FixedDigits(n, width)| && LexLess(FixedDigits(m, width), FixedDigits(n, width))
    decreases width
  {
    FixedDigitsLength(m, width);
    FixedDigitsLength(n, width);
    if width > 0 {
      FixedDigitsLength(m / 10, width - 1);
      FixedDigitsLength(n / 10, width - 1);
      if m / 10 < n / 10 {
        FixedDigitsLess(m / 10, n / 10, width - 1);
        LexSuffix(FixedDigits(m / 10, width - 1), FixedDigits(n / 10, width - 1), [Digit(m % 10)], [Digit(n % 10)]);
      } else {
        assert m % 10 < n % 10;
        LexPrefix(FixedDigits(m / 10, width - 1), [Digit(m % 10)], [Digit(n % 10)]);
      }
    }
  }

  lemma {:induction false} FixedDigitsLength(n: nat, width: nat)
    ensures |FixedDigits(n, width)| == width
    decreases width
  {
    if width > 0 {
      FixedDigitsLength(n / 10, width - 1);
    }
  }

  lemma {:induction false} ZeroDigits(width: nat)
    ensures FixedDigits(0, width) == Zeros(width)
  {
    if width > 0 {
      ZeroDigits(width - 1);
      assert Zeros(width) == Zeros(width - 1) + ['0'];
    }
  }

  /** Decimal digits are the last `width` digits without their leading zeros. */
  lemma {:induction false} DecimalFixed(n: nat, width: nat)
    requires |Decimal(n)| <= width
    ensures FixedDigits(n, width) == Zeros(width - |Decimal(n)|) + Decimal(n) && n < Pow10(width)
    decreases width
  {
    if n < 10 {
      ZeroDigits(width - 1);
      assert n < 10 * Pow10(width - 1) by { Pow10Positive(width - 1); }
    } else {
      DecimalFixed(n / 10, width - 1);
      assert Zeros(width - |Decimal(n)|) + Decimal(n / 10) + [Digit(n % 10)] == Zeros(width - |Decimal(n)|) + Decimal(n);
    }
  }

  lemma {:induction false} Pow10Positive(e: nat)
    ensures Pow10(e) > 0
  {
    if e > 0 {
      Pow10Positive(e - 1);
    }
  }

  lemma {:induction false} DecimalLength(n: nat, width: nat)
    requires width > 0 && n < Pow10(width)
    ensures |Decimal(n)| <= width
    decreases width
  {
    if n >= 10 {
      assert width > 1 by { assert Pow10(1) == 10 * Pow10(0); }
      DecimalLength(n / 10, width - 1);
    }
  }

  /** Padded numbers of one length compare like the numbers. */
  lemma PaddedLess(m: nat, n: nat, width: nat)
    requires m < n && |Padded(m, width)| == |Padded(n, width)|
    ensures LexLess(Padded(m, width), Padded(n, width))
  {
    var w := |Padded(m, width)|;
    DecimalFixed(m, w);
    DecimalFixed(n, w);
    FixedDigitsLess(m, n, w);
    assert Zeros(0) + Decimal(m) == Decimal(m) && Zeros(0) + Decimal(n) == Decimal(n);
  }

  lemma PaddedLength(n: nat, width: nat)
    requires width > 0 && n < Pow10(width)
    ensures |Padded(n, width)| == width
  {
    DecimalLength(n, width);
  }

  predicate InRange(s: Stamp) {
    s.month < 100 && s.day < 100 && s.hour < 100 && s.minute < 100 && s.second < 100 && s.millis < 1_000
  }

  predicate Earlier(a: Stamp, b: Stamp) {
    if a.year != b.year then a.year < b.year
    else if a.month != b.month then a.month < b.month
    else if a.day != b.day then a.day < b.day
    else if a.hour != b.hour then a.hour < b.hour
    else if a.minute != b.minute then a.minute < b.minute
    else if a.second != b.second then a.second < b.second
    else a.millis < b.millis
  }

  lemma TwoDigits(m: nat, n: nat)
    requires m < n < 100
    ensures |Padded(m, 2)| == |Padded(n, 2)| && LexLess(Padded(m, 2), Padded(n, 2))
  {
    assert Pow10(2) == 100;
    PaddedLength(m, 2);
    PaddedLength(n, 2);
    PaddedLess(m, n, 2);
  }

  lemma EarlierYearLess(a: Stamp, b: Stamp)
    requires a.year < b.year && |Padded(a.year, 4)| == |Padded(b.year, 4)|
    ensures LexLess(Join(Parts(a)), Join(Parts(b)))
  {
    PaddedLess(a.year, b.year, 4);
    JoinLess(Parts(a), Parts(b), 0);
  }

  lemma EarlierDateLess(a: Stamp, b: Stamp)
    requires InRange(a) && InRange(b) && Earlier(a, b)
    requires a.year == b.year && (a.month != b.month || a.day != b.day)
    ensures LexLess(Join(Parts(a)), Join(Parts(b)))
  {
    var k;
    if a.month != b.month {
      k := 2;
      TwoDigits(a.month, b.month);
    } else {
      k := 4;
      TwoDigits(a.day, b.day);
    }
    JoinLess(Parts(a), Parts(b), k);
  }

  lemma EarlierClockLess(a: Stamp, b: Stamp)
    requires InRange(a) && InRange(b) && Earlier(a, b)
    requires a.year == b.year && a.month == b.month && a.day == b.day
    requires a.hour != b.hour || a.minute != b.minute || a.second != b.second
    ensures LexLess(Join(Parts(a)), Join(Parts(b)))
  {
    var k;
    if a.hour != b.hour {
      k := 6;
      TwoDigits(a.hour, b.hour);
    } else if a.minute != b.minute {
      k := 8;
      TwoDigits(a.minute, b.minute);
    } else {
      k := 10;
      TwoDigits(a.second, b.second);
    }
    JoinLess(Parts(a), Parts(b), k);
  }

  lemma EarlierTextLess(a: Stamp, b: Stamp)
    requires InRange(a) && InRange(b) && Earlier(a, b) && |Padded(a.year, 4)| == |Padded(b.year, 4)|
    ensures LexLess(Join(Parts(a)), Join(Parts(b)))
  {
    if a.year != b.year {
      EarlierYearLess(a, b);
    } else if a.month != b.month || a.day != b.day {
      EarlierDateLess(a, b);
    } else if a.hour != b.hour || a.minute != b.minute || a.second != b.second {
      EarlierClockLess(a, b);
    } else {
      assert Pow10(3) == 1_000;
      PaddedLength(a.millis, 3);
      PaddedLength(b.millis, 3);
      PaddedLess(a.millis, b.millis, 3);
      JoinLess(Parts(a), Parts(b), 12);
    }
  }

  lemma StampMonotone(s: nat, t: nat)
    requires s < t
    ensures InRange(StampOf(s)) && InRange(StampOf(t)) && Earlier(StampOf(s), StampOf(t))
  {
    var d, e := s / 1_000 / 86_400, t / 1_000 / 86_400;
    CivilIsCalendar(d);
    CivilIsCalendar(e);
    if d < e {
      CivilMonotone(d, e);
    } else {
      TimeOfDayMonotone(s, t);
    }
  }

  lemma TimeOfDayMonotone(s: nat, t: nat)
    requires s < t && s / 1_000 / 86_400 == t / 1_000 / 86_400
    ensures var x, y := s / 1_000 % 86_400, t / 1_000 % 86_400;
            if x / 3_600 != y / 3_600 then x / 3_600 < y / 3_600
            else if x % 3_600 / 60 != y % 3_600 / 60 then x % 3_600 / 60 < y % 3_600 / 60
            else if x % 60 != y % 60 then x % 60 < y % 60
            else s % 1_000 < t % 1_000
  {
    var x, y := s / 1_000 % 86_400, t / 1_000 % 86_400;
    assert x <= y;
    assert x == 3_600 * (x / 3_600) + x % 3_600 && y == 3_600 * (y / 3_600) + y % 3_600;
    assert x % 60 == x % 3_600 % 60 && y % 60 == y % 3_600 % 60;
  }

  /** Timestamps sort as text in time order as long as their years are equally wide. */
  lemma TimestampsSort(s: nat, t: nat)
    requires s < t && |Padded(StampOf(s).year, 4)| == |Padded(StampOf(t).year, 4)|
    ensures LexLess(FormatTimestamp(s), FormatTimestamp(t))
  {
    StampMonotone(s, t);
    EarlierTextLess(StampOf(s), StampOf(t));
  }

  const END_OF_9999: nat := 253_402_300_800_000

  lemma TurnOfTheYear()
    ensures CivilFromDays(2_932_896) == Date(9_999, 12, 31)
    ensures CivilFromDays(2_932_897) == Date(10_000, 1, 1)
  {
    LastDayOf9999();
    CivilSuccessor(2_932_896);
  }

  lemma LastDayOf9999()
    ensures CivilFromDays(2_932_896) == Date(9_999, 12, 31)
  {
    assert (2_932_896 + 719_468) / 146_097 == 24 && (2_932_896 + 719_468) % 146_097 == 146_036;
    assert YearOfEra(146_036) == 399;
  }

  /** Through the year 9999 timestamps sort as text in time order ... */
  lemma TimestampsSortThrough9999(s: nat, t: nat)
    requires s < t < END_OF_9999
    ensures LexLess(FormatTimestamp(s), FormatTimestamp(t))
  {
    FourDigitYear(s);
    FourDigitYear(t);
    TimestampsSort(s, t);
  }

  lemma FourDigitYear(t: nat)
    requires t < END_OF_9999
    ensures |Padded(StampOf(t).year, 4)| == 4
  {
    var d := t / 1_000 / 86_400;
    TurnOfTheYear();
    if d < 2_932_896 {
      CivilMonotone(d, 2_932_896);
    }
    assert Pow10(4) == 10_000;
    CivilIsCalendar(d);
    PaddedLength(StampOf(t).year, 4);
  }

  /** ... and not one millisecond longer. */
  lemma TimestampsStopSorting()
    ensures !LexLess(FormatTimestamp(END_OF_9999 - 1), FormatTimestamp(END_OF_9999))
  {
    YearsAtTheTurn();
    YearTexts();
    WiderYearBreaksOrder(END_OF_9999 - 1, END_OF_9999);
  }

  lemma YearsAtTheTurn()
    ensures StampOf(END_OF_9999 - 1).year == 9_999 && StampOf(END_OF_9999).year == 10_000
  {
    assert (END_OF_9999 - 1) / 1_000 / 86_400 == 2_932_896;
    assert END_OF_9999 / 1_000 / 86_400 == 2_932_897;
    TurnOfTheYear();
  }

  lemma WiderYearBreaksOrder(s: nat, t: nat)
    requires Padded(StampOf(s).year, 4) == "9999" && Padded(StampOf(t).year, 4) == "10000"
    ensures !LexLess(FormatTimestamp(s), FormatTimestamp(t))
  {
    FormatStartsWithYear(s);
    FormatStartsWithYear(t);
    assert FormatTimestamp(s)[0] == "9999"[0] && FormatTimestamp(t)[0] == "10000"[0];
  }

  lemma YearTexts()
    ensures Padded(9_999, 4) == "9999" && Padded(10_000, 4) == "10000"
  {
    assert Decimal(9) == "9" && Decimal(1) == "1";
    assert Decimal(99) == Decimal(9) + ['9'] == "99";
    assert Decimal(999) == Decimal(99) + ['9'] == "999";
    assert Decimal(9_999) == Decimal(999) + ['9'] == "9999";
    assert Decimal(10) == Decimal(1) + ['0'] == "10";
    assert Decimal(100) == Decimal(10) + ['0'] == "100";
    assert Decimal(1_000) == Decimal(100) + ['0'] == "1000";
    assert Decimal(10_000) == Decimal(1_000) + ['0'] == "10000";
  }

  lemma FormatStartsWithYear(t: nat)
    ensures Padded(StampOf(t).year, 4) <= FormatTimestamp(t)
  {
  }

  // ---- Reading a timestamp back ----

  /** The number that decimal digits stand for. */
  function Value(digits: string): int {
    if digits == [] then 0 else 10 * Value(digits[..|digits| - 1]) + (digits[|digits| - 1] as int - '0' as int)
  }

  predicate AllDigits(s: string) { forall c <- s :: '0' <= c <= '9' }

  lemma {:induction false} DecimalValue(n: nat)
    ensures AllDigits(Decimal(n)) && Value(Decimal(n)) == n
  {
    if n >= 10 {
      DecimalValue(n / 10);
    } else {
      assert Decimal(n)[..0] == [];
    }
  }

  lemma {:induction false} ZerosValue(k: nat, digits: string)
    ensures Value(Zeros(k) + digits) == Value(digits)
    decreases |digits|, k
  {
    var text := Zeros(k) + digits;
    if digits == [] {
      if k > 0 {
        assert text[..k - 1] == Zeros(k - 1) + [] && text[k - 1] == '0';
        ZerosValue(k - 1, []);
      }
    } else {
      assert text[..|text| - 1] == Zeros(k) + digits[..|digits| - 1];
      ZerosValue(k, digits[..|digits| - 1]);
    }
  }

  lemma PaddedValue(n: nat, width: nat)
    ensures AllDigits(Padded(n, width)) && Value(Padded(n, width)) == n && |Padded(n, width)| >= width
  {
    DecimalValue(n);
    if |Decimal(n)| < width {
      ZerosValue(width - |Decimal(n)|, Decimal(n));
    }
  }

  /** A field of so many digits. */
  predicate Field(s: string, width: nat) { |s| == width && AllDigits(s) }

  function DateText(year: string, month: string, day: string, clock: string): string {
    year + ("-" + (month + ("-" + (day + ("T" + clock)))))
  }

  function ClockText(hour: string, minute: string, second: string, millis: string): string {
    hour + (":" + (minute + (":" + (second + ("." + (millis + "Z"))))))
  }

  datatype Fields = Fields(year: string, month: string, day: string, hour: string, minute: string, second: string, millis: string)
  {
    /** `YYYY-MM-DDThh:mm:ss.mmmZ`, by the grammar of RFC 3339 section 5.6; a year after 9999 has
      * more digits. */
    predicate Shape() {
      && |year| >= 4 && AllDigits(year) && Field(month, 2) && Field(day, 2) && Field(hour, 2) && Field(minute, 2)
      && Field(second, 2) && Field(millis, 3)
    }

    function Text(): string { DateText(year, month, day, ClockText(hour, minute, second, millis)) }

    function DateOf(): Date { Date(Value(year), Value(month), Value(day)) }

    /** The instant of the date and the time of day, in milliseconds since the epoch. */
    function Instant(): int {
      (((DaysToDate(DateOf()) * 24 + Value(hour)) * 60 + Value(minute)) * 60 + Value(second)) * 1_000 + Value(millis)
    }

    predicate Sensible() {
      && ValidDate(DateOf()) && Value(year) >= 1970
      && 0 <= Value(hour) < 24 && 0 <= Value(minute) < 60 && 0 <= Value(second) < 60 && 0 <= Value(millis) < 1_000
    }
  }

  function FieldsOf(s: Stamp): Fields {
    Fields(Padded(s.year, 4), Padded(s.month, 2), Padded(s.day, 2), Padded(s.hour, 2), Padded(s.minute, 2), Padded(s.second, 2),
           Padded(s.millis, 3))
  }

  lemma FieldWidths(s: Stamp)
    requires InRange(s)
    ensures FieldsOf(s).Shape()
  {
    assert Pow10(2) == 100 && Pow10(3) == 1_000;
    PaddedLength(s.month, 2);
    PaddedLength(s.day, 2);
    PaddedLength(s.hour, 2);
    PaddedLength(s.minute, 2);
    PaddedLength(s.second, 2);
    PaddedLength(s.millis, 3);
    FieldValues(s);
  }

  lemma FieldValues(s: Stamp)
    ensures var f := FieldsOf(s);
            && Value(f.year) == s.year && Value(f.month) == s.month && Value(f.day) == s.day
            && Value(f.hour) == s.hour && Value(f.minute) == s.minute && Value(f.second) == s.second && Value(f.millis) == s.millis
    ensures var f := FieldsOf(s);
            && AllDigits(f.year) && AllDigits(f.month) && AllDigits(f.day) && AllDigits(f.hour) && AllDigits(f.minute)
            && AllDigits(f.second) && AllDigits(f.millis) && |f.year| >= 4
  {
    PaddedValue(s.year, 4);
    PaddedValue(s.month, 2);
    PaddedValue(s.day, 2);
    PaddedValue(s.hour, 2);
    PaddedValue(s.minute, 2);
    PaddedValue(s.second, 2);
    PaddedValue(s.millis, 3);
  }

  lemma JoinOne(a: string, rest: seq<string>)
    ensures Join([a] + rest) == a + Join(rest)
  {
    assert ([a] + rest)[1..] == rest;
  }

  lemma JoinClock(hour: string, minute: string, second: string, millis: string)
    ensures Join([hour, ":", minute, ":", second, ".", millis, "Z"]) == ClockText(hour, minute, second, millis)
  {
    JoinOne(hour, [":", minute, ":", second, ".", millis, "Z"]);
    JoinOne(":", [minute, ":", second, ".", millis, "Z"]);
    JoinOne(minute, [":", second, ".", millis, "Z"]);
    JoinOne(":", [second, ".", millis, "Z"]);
    JoinOne(second, [".", millis, "Z"]);
    JoinOne(".", [millis, "Z"]);
    JoinOne(millis, ["Z"]);
    JoinOne("Z", []);
    assert "Z" + Join([]) == "Z";
  }

  lemma JoinDate(year: string, month: string, day: string, rest: seq<string>)
    ensures Join([year, "-", month, "-", day, "T"] + rest) == DateText(year, month, day, Join(rest))
  {
    JoinOne(year, ["-", month, "-", day, "T"] + rest);
    JoinOne("-", [month, "-", day, "T"] + rest);
    JoinOne(month, ["-", day, "T"] + rest);
    JoinOne("-", [day, "T"] + rest);
    JoinOne(day, ["T"] + rest);
    JoinOne("T", rest);
    assert [year] + (["-", month, "-", day, "T"] + rest) == [year, "-", month, "-", day, "T"] + rest;
    assert ["-"] + ([month, "-", day, "T"] + rest) == ["-", month, "-", day, "T"] + rest;
    assert [month] + (["-", day, "T"] + rest) == [month, "-", day, "T"] + rest;
    assert ["-"] + ([day, "T"] + rest) == ["-", day, "T"] + rest;
    assert [day] + (["T"] + rest) == [day, "T"] + rest;
  }

  lemma JoinFields(s: Stamp)
    ensures Join(Parts(s)) == FieldsOf(s).Text()
  {
    var f := FieldsOf(s);
    var clock := [f.hour, ":", f.minute, ":", f.second, ".", f.millis, "Z"];
    JoinClock(f.hour, f.minute, f.second, f.millis);
    JoinDate(f.year, f.month, f.day, clock);
    assert Parts(s) == [f.year, "-", f.month, "-", f.day, "T"] + clock;
  }

  lemma TimeOfDay(seconds: nat)
    ensures var time := seconds % 86_400;
            && time / 3_600 < 24 && time % 3_600 / 60 < 60 && time % 60 < 60
            && ((seconds / 86_400 * 24 + time / 3_600) * 60 + time % 3_600 / 60) * 60 + time % 60 == seconds
  {
    var time := seconds % 86_400;
    var hour, rest := time / 3_600, time % 3_600;
    assert time % 60 == rest % 60 && rest == 60 * (rest / 60) + rest % 60;
    assert time == 3_600 * hour + rest && seconds == 86_400 * (seconds / 86_400) + time;
  }

  /** Every timestamp has the shape of one, and read back it is the instant it was made from:
    * the date by the calendar, then hours, minutes, seconds and milliseconds. */
  lemma TimestampReadsBack(unixMs: nat) returns (f: Fields)
    ensures f.Shape() && FormatTimestamp(unixMs) == f.Text()
    ensures f.Sensible() && f.Instant() == unixMs
  {
    var s := StampOf(unixMs);
    f := FieldsOf(s);
    StampMonotone(unixMs, unixMs + 1);
    FieldWidths(s);
    FieldValues(s);
    JoinFields(s);
    CivilIsCalendar(unixMs / 1_000 / 86_400);
    CivilCountsBack(unixMs / 1_000 / 86_400);
    TimeOfDay(unixMs / 1_000);
  }

  lemma Cancel(a: string, b: string, x: string, y: string)
    requires |a| == |b| && a + x == b + y
    ensures a == b && x == y
  {
    assert a == (a + x)[..|a|] == (b + y)[..|b|] == b;
    assert x == (a + x)[|a|..] == (b + y)[|b|..] == y;
  }

  lemma ClockOneWay(f: Fields, g: Fields)
    requires f.Shape() && g.Shape() && ClockText(f.hour, f.minute, f.second, f.millis) == ClockText(g.hour, g.minute, g.second, g.millis)
    ensures f.hour == g.hour && f.minute == g.minute && f.second == g.second && f.millis == g.millis
  {
    Cancel(f.hour, g.hour, ":" + (f.minute + (":" + (f.second + ("." + (f.millis + "Z"))))), ":" + (g.minute + (":" + (g.second + ("." + (g.millis + "Z"))))));
    Cancel(":", ":", f.minute + (":" + (f.second + ("." + (f.millis + "Z")))), g.minute + (":" + (g.second + ("." + (g.millis + "Z")))));
    Cancel(f.minute, g.minute, ":" + (f.second + ("." + (f.millis + "Z"))), ":" + (g.second + ("." + (g.millis + "Z"))));
    Cancel(":", ":", f.second + ("." + (f.millis + "Z")), g.second + ("." + (g.millis + "Z")));
    Cancel(f.second, g.second, "." + (f.millis + "Z"), "." + (g.millis + "Z"));
    Cancel(".", ".", f.millis + "Z", g.millis + "Z");
    Cancel(f.millis, g.millis, "Z", "Z");
  }

  /** There is only one way to read such a text. */
  lemma ReadOneWay(f: Fields, g: Fields)
    requires f.Shape() && g.Shape() && f.Text() == g.Text()
    ensures f == g
  {
    var (x, y) := (ClockText(f.hour, f.minute, f.second, f.millis), ClockText(g.hour, g.minute, g.second, g.millis));
    assert |f.Text()| == |f.year| + 20 && |g.Text()| == |g.year| + 20;
    Cancel(f.year, g.year, "-" + (f.month + ("-" + (f.day + ("T" + x)))), "-" + (g.month + ("-" + (g.day + ("T" + y)))));
    Cancel("-", "-", f.month + ("-" + (f.day + ("T" + x))), g.month + ("-" + (g.day + ("T" + y))));
    Cancel(f.month, g.month, "-" + (f.day + ("T" + x)), "-" + (g.day + ("T" + y)));
    Cancel("-", "-", f.day + ("T" + x), g.day + ("T" + y));
    Cancel(f.day, g.day, "T" + x, "T" + y);
    Cancel("T", "T", x, y);
    ClockOneWay(f, g);
  }
}
