/** Unix milliseconds to a calendar date: the closed-form arithmetic against the calendar
    itself, counted day by day. */
module CivilDate {
  import Items

  // ---- The calendar -------------------------------------------------------------------

  datatype Date = Date(year: nat, month: nat, day: nat)

  predicate Leap(year: nat) {
    year % 4 == 0 && (year % 100 != 0 || year % 400 == 0)
  }

  function YearLength(year: nat): nat {
    if Leap(year) then 366 else 365
  }

  function MonthLength(year: nat, month: nat): nat {
    if month == 2 then (if Leap(year) then 29 else 28)
    else if month in {4, 6, 9, 11} then 30 else 31
  }

  predicate Valid(date: Date) {
    1 <= date.month <= 12 && 1 <= date.day <= MonthLength(date.year, date.month)
  }

  /** Days from the first day of year 0 to the first day of `year`. */
  function DaysBeforeYear(year: nat): nat {
    if year == 0 then 0 else DaysBeforeYear(year - 1) + YearLength(year - 1)
  }

  function DaysBeforeMonth(year: nat, month: nat): nat {
    if month <= 1 then 0 else DaysBeforeMonth(year, month - 1) + MonthLength(year, month - 1)
  }

  /** Days from the first of January 1970 to `date`. */
  function DayNumber(date: Date): int {
    DaysBeforeYear(date.year) + DaysBeforeMonth(date.year, date.month) + date.day - 1 - DaysBeforeYear(1970)
  }

  function NextDay(date: Date): Date {
    if date.day < MonthLength(date.year, date.month) then date.(day := date.day + 1)
    else if date.month < 12 then Date(date.year, date.month + 1, 1)
    else Date(date.year + 1, 1, 1)
  }

  // ---- The conversion ---------------------------------------------------------------------

  function YearOfEra(doe: nat): int {
    (doe - doe / 1460 + doe / 36524 - doe / 146096) / 365
  }

  /** The date of a day counted from 1970, as the closed form computes it. */
  function CivilOf(days: nat): (int, int, int) {
    var z := days + 719468;
    var era := z / 146097;
    var doe := z - era * 146097;
    var yoe := YearOfEra(doe);
    CivilFrom(era, yoe, doe - (365 * yoe + yoe / 4 - yoe / 100))
  }

  /** From the era, its year and the day of that year, both counted from March. */
  function CivilFrom(era: int, yoe: int, doy: int): (int, int, int) {
    var mp := (5 * doy + 2) / 153;
    var d := doy - (153 * mp + 2) / 5 + 1;
    var m := if mp < 10 then mp + 3 else mp - 9;
    (yoe + era * 400 + (if m <= 2 then 1 else 0), m, d)
  }

  // ---- The calendar in closed form --------------------------------------------------------

  lemma {:induction false} DaysBeforeYearIs(year: nat)
    ensures DaysBeforeYear(year)
         == 365 * year + (if year == 0 then 0 else (year - 1) / 4 - (year - 1) / 100 + (year - 1) / 400 + 1)
  {
    if year > 0 {
      DaysBeforeYearIs(year - 1);
      if year > 1 { LeapsStep(year - 1); }
    }
  }

  /** One more leap year exactly at a leap year. */
  lemma LeapsStep(y: nat)
    requires y > 0
    ensures y / 4 - y / 100 + y / 400
         == (y - 1) / 4 - (y - 1) / 100 + (y - 1) / 400 + (if Leap(y) then 1 else 0)
  {
    assert y / 4 == (y - 1) / 4 + (if y % 4 == 0 then 1 else 0);
    assert y / 100 == (y - 1) / 100 + (if y % 100 == 0 then 1 else 0);
    assert y / 400 == (y - 1) / 400 + (if y % 400 == 0 then 1 else 0);
    assert y % 400 == 0 ==> y % 100 == 0;
    assert y % 100 == 0 ==> y % 4 == 0;
  }

  function MonthStart(year: nat, month: nat): nat
    requires 1 <= month <= 12
  {
    [0, 31, 59, 90, 120, 151, 181, 212, 243, 273, 304, 334][month - 1] + (if month > 2 && Leap(year) then 1 else 0)
  }

  lemma {:induction false} DaysBeforeMonthIs(year: nat, month: nat)
    requires 1 <= month <= 12
    ensures DaysBeforeMonth(year, month) == MonthStart(year, month)
  {
    hide Leap;
    if month > 1 { DaysBeforeMonthIs(year, month - 1); }
  }

  // ---- The year of the era ------------------------------------------------------------------

  /** A day of a 400-year era, March first, as centuries, four-year spans, years and days. Only
      the last year of a span runs to 366 days, and the last span of a century is short unless
      the century closes the era. */
  predicate Splits(doe: nat, c: nat, q: nat, s: nat, k: nat) {
    && doe == 36524 * c + 1461 * q + 365 * s + k
    && c <= 3 && q <= 24 && s <= 3 && k <= 365
    && (k == 365 ==> s == 3 && (q < 24 || c == 3))
  }

  lemma Split(doe: nat) returns (c: nat, q: nat, s: nat, k: nat)
    requires doe < 146097
    ensures Splits(doe, c, q, s, k)
  {
    c := if doe / 36524 > 3 then 3 else doe / 36524;
    var r := doe - 36524 * c;
    assert r < 36524 || (c == 3 && r == 36524);
    q := r / 1461;
    var t := r - 1461 * q;
    s := if t / 365 > 3 then 3 else t / 365;
    k := t - 365 * s;
  }

  lemma YearOfEraIs(doe: nat, c: nat, q: nat, s: nat, k: nat)
    requires Splits(doe, c, q, s, k)
    ensures YearOfEra(doe) == 100 * c + 4 * q + s
  {
    var over := 24 * c + q + 365 * s + k;
    assert doe == 1460 * (25 * c + q) + over;
    assert doe / 1460 == 25 * c + q + (if over >= 1460 then 1 else 0);
    assert doe / 36524 == c + (if 1461 * q + 365 * s + k >= 36524 then 1 else 0);
    assert doe / 146096 == (if doe == 146096 then 1 else 0);
  }

  /** The days of the era before year `yoe`, March first. */
  lemma EraDays(c: nat, q: nat, s: nat)
    requires c <= 3 && q <= 24 && s <= 3
    ensures var y := 100 * c + 4 * q + s;
            365 * y + y / 4 - y / 100 == 36524 * c + 1461 * q + 365 * s
  {
    var y := 100 * c + 4 * q + s;
    assert y / 4 == 25 * c + q;
    assert y / 100 == c;
  }

  /** The year that starts in March of year `y` of an era holds a leap day exactly when it is
      the one that may run to 366 days. */
  lemma LeapAfter(era: nat, c: nat, q: nat, s: nat)
    requires c <= 3 && q <= 24 && s <= 3
    ensures Leap(400 * era + 100 * c + 4 * q + s + 1) <==> s == 3 && (q < 24 || c == 3)
  {
    var y := 400 * era + 100 * c + 4 * q + s + 1;
    if s < 3 {
      Mod4(y, 100 * era + 25 * c + q, s + 1);
    } else {
      Mod4(y, 100 * era + 25 * c + q + 1, 0);
      if q < 24 {
        Mod100(y, 4 * era + c, 4 * q + 4);
      } else {
        Mod100(y, 4 * era + c + 1, 0);
        if c < 3 { Mod400(y, era, 100 * (c + 1)); } else { Mod400(y, era + 1, 0); }
      }
    }
  }

  lemma Mod4(y: nat, k: nat, r: nat)
    requires y == 4 * k + r && r < 4
    ensures y % 4 == r
  {
  }

  lemma Mod100(y: nat, k: nat, r: nat)
    requires y == 100 * k + r && r < 100
    ensures y % 100 == r
  {
  }

  lemma Mod400(y: nat, k: nat, r: nat)
    requires y == 400 * k + r && r < 400
    ensures y % 400 == r
  {
  }

  // ---- The month and the day -------------------------------------------------------------------

  /** Where the month counted from March starts in a year counted from March. */
  lemma MonthOfYear(doy: nat)
    requires doy <= 365
    ensures var mp := (5 * doy + 2) / 153;
            var d := doy - (153 * mp + 2) / 5 + 1;
            && 0 <= mp <= 11 && 1 <= d <= 31
            && doy == [0, 31, 61, 92, 122, 153, 184, 214, 245, 275, 306, 337][mp] + d - 1
            && d <= [31, 30, 31, 30, 31, 31, 30, 31, 30, 31, 31, 29][mp]
            && (mp == 11 && d == 29 ==> doy == 365)
  {
  }

  // ---- The conversion is the calendar -------------------------------------------------------------

  /** The parts of a day number the closed form works with. */
  lemma Parts(days: nat) returns (era: nat, yoe: nat, doy: nat)
    ensures days + 719468 == 146097 * era + 365 * yoe + yoe / 4 - yoe / 100 + doy
    ensures yoe <= 399 && doy <= 365
    ensures doy == 365 ==> Leap(400 * era + yoe + 1)
    ensures CivilOf(days) == CivilFrom(era, yoe, doy)
  {
    hide Leap, YearOfEra, CivilFrom, CivilOf;
    var z := days + 719468;
    era := z / 146097;
    var doe := z - era * 146097;
    var c, q, s, k := Split(doe);
    YearOfEraIs(doe, c, q, s, k);
    EraDays(c, q, s);
    LeapAfter(era, c, q, s);
    yoe := 100 * c + 4 * q + s;
    doy := k;
    CivilOfIs(days, era, doe, yoe, doy);
  }

  lemma CivilOfIs(days: nat, era: nat, doe: nat, yoe: nat, doy: nat)
    requires days + 719468 == 146097 * era + doe && doe < 146097 && YearOfEra(doe) == yoe
    requires doe == 365 * yoe + yoe / 4 - yoe / 100 + doy
    ensures CivilOf(days) == CivilFrom(era, yoe, doy)
  {
    hide YearOfEra, CivilFrom;
    assert (days + 719468) / 146097 == era;
  }

  lemma EraLeaps(era: nat, y: nat)
    ensures (400 * era + y) / 4 == 100 * era + y / 4
    ensures (400 * era + y) / 100 == 4 * era + y / 100
    ensures (400 * era + y) / 400 == era + y / 400
  {
  }

  lemma DaysTo1970()
    ensures DaysBeforeYear(1970) == 719528
  {
    DaysBeforeYearIs(1970);
  }

  /** January and February belong to the year after the one that started in March. */
  lemma YearStart(era: nat, yoe: nat)
    requires yoe <= 399
    ensures DaysBeforeYear(400 * era + yoe + 1) == 146097 * era + 365 * yoe + yoe / 4 - yoe / 100 + 366
    ensures DaysBeforeYear(400 * era + yoe) + (if Leap(400 * era + yoe) then 0 else -1)
         == 146097 * era + 365 * yoe + yoe / 4 - yoe / 100
  {
    hide Leap;
    var y := 400 * era + yoe;
    assert DaysBeforeYear(y + 1) == DaysBeforeYear(y) + YearLength(y);
    hide DaysBeforeYear;
    DaysBeforeYearIs(y + 1);
    EraLeaps(era, yoe);
  }

  function DateOf(civil: (int, int, int)): Date
    requires civil.0 >= 0 && civil.1 >= 0 && civil.2 >= 0
  {
    Date(civil.0, civil.1, civil.2)
  }

  /** For every day from 1970 on, the closed form gives a date of the calendar, and that date
      is exactly that many days after the first of January 1970. */
  lemma CivilOfIsExact(days: nat)
    ensures CivilOf(days).0 >= 0 && CivilOf(days).1 >= 0 && CivilOf(days).2 >= 0
    ensures Valid(DateOf(CivilOf(days))) && DayNumber(DateOf(CivilOf(days))) == days
  {
    var era, yoe, doy := Parts(days);
    hide CivilOf, DaysBeforeYear, DaysBeforeMonth, Leap;
    MonthOfYear(doy);
    DaysTo1970();
    YearStart(era, yoe);
    var mp := (5 * doy + 2) / 153;
    var m := if mp < 10 then mp + 3 else mp - 9;
    DaysBeforeMonthIs(CivilOf(days).0, m);
  }

  // ---- The calendar is determined -------------------------------------------------------------------

  lemma {:induction false} YearsAscend(a: nat, b: nat)
    requires a < b
    ensures DaysBeforeYear(a) + YearLength(a) <= DaysBeforeYear(b)
    decreases b
  {
    hide YearLength;
    if a < b - 1 { YearsAscend(a, b - 1); }
  }

  lemma {:induction false} MonthsAscend(year: nat, a: nat, b: nat)
    requires 1 <= a < b <= 13
    ensures DaysBeforeMonth(year, a) + MonthLength(year, a) <= DaysBeforeMonth(year, b)
    decreases b
  {
    hide MonthLength;
    if a < b - 1 { MonthsAscend(year, a, b - 1); }
  }

  lemma YearIsItsMonths(year: nat)
    ensures DaysBeforeMonth(year, 13) == YearLength(year)
  {
    DaysBeforeMonthIs(year, 12);
  }

  lemma WithinYear(date: Date)
    requires Valid(date)
    ensures 0 <= DaysBeforeMonth(date.year, date.month) + date.day - 1 < YearLength(date.year)
  {
    hide MonthLength, YearLength;
    MonthsAscend(date.year, date.month, 13);
    YearIsItsMonths(date.year);
  }

  /** No two dates share a day number. */
  lemma DatesAreDistinct(a: Date, b: Date)
    requires Valid(a) && Valid(b) && DayNumber(a) == DayNumber(b)
    ensures a == b
  {
    hide MonthLength, YearLength, DaysBeforeYear, DaysBeforeMonth;
    WithinYear(a);
    WithinYear(b);
    if a.year < b.year { YearsAscend(a.year, b.year); }
    if b.year < a.year { YearsAscend(b.year, a.year); }
    if a.month < b.month { MonthsAscend(a.year, a.month, b.month); }
    if b.month < a.month { MonthsAscend(a.year, b.month, a.month); }
  }

  lemma NextDayIsNext(date: Date)
    requires Valid(date)
    ensures Valid(NextDay(date)) && DayNumber(NextDay(date)) == DayNumber(date) + 1
  {
    YearIsItsMonths(date.year);
    hide Leap;
    if date.day == MonthLength(date.year, date.month) && date.month == 12 {
      assert DaysBeforeYear(date.year + 1) == DaysBeforeYear(date.year) + YearLength(date.year);
      assert DaysBeforeMonth(date.year, 13) == DaysBeforeMonth(date.year, 12) + MonthLength(date.year, 12);
    }
  }

  lemma FirstDay()
    ensures CivilOf(0) == (1970, 1, 1)
  {
    hide CivilOf, DaysBeforeYear;
    CivilOfIsExact(0);
    DatesAreDistinct(DateOf(CivilOf(0)), Date(1970, 1, 1));
  }

  /** Consecutive days get consecutive dates, across months, leap days and eras, from the first
      of January 1970 on. */
  lemma ConsecutiveDays(days: nat)
    ensures CivilOf(0) == (1970, 1, 1)
    ensures var today, tomorrow := CivilOf(days), CivilOf(days + 1);
            && today.0 >= 0 && today.1 >= 0 && today.2 >= 0
            && tomorrow == (NextDay(DateOf(today)).year, NextDay(DateOf(today)).month, NextDay(DateOf(today)).day)
  {
    hide CivilOf, DayNumber, NextDay, Valid;
    FirstDay();
    CivilOfIsExact(days);
    CivilOfIsExact(days + 1);
    NextDayIsNext(DateOf(CivilOf(days)));
    DatesAreDistinct(NextDay(DateOf(CivilOf(days))), DateOf(CivilOf(days + 1)));
  }

  // ---- The text --------------------------------------------------------------------------------------

  const DAY_MS := 86400000

  function Padded(n: nat, width: nat): string {
    var digits := Items.Decimal(n);
    Zeros(if |digits| < width then width - |digits| else 0) + digits
  }

  function Zeros(n: nat): string {
    seq(n, i => '0')
  }

  /** The date of a Unix time in milliseconds, as written. */
  function CivilDateUtc(unixMs: nat): string {
    CivilOfIsExact(unixMs / DAY_MS);
    var (y, m, d) := CivilOf(unixMs / DAY_MS);
    Padded(y, 4) + "-" + Padded(m, 2) + "-" + Padded(d, 2)
  }

  /** The number a run of digits writes. */
  function Value(digits: string): int {
    if digits == "" then 0
    else 10 * Value(digits[..|digits| - 1]) + (digits[|digits| - 1] as int - '0' as int)
  }

  lemma {:induction false} ValueOfDecimal(n: nat)
    ensures Value(Items.Decimal(n)) == n && Items.Decimal(n) != ""
    ensures n < 100 ==> |Items.Decimal(n)| <= 2
    ensures n < 10 ==> |Items.Decimal(n)| == 1
  {
    if n >= 10 {
      ValueOfDecimal(n / 10);
      var front, last := Items.Decimal(n / 10), ('0' as int + n % 10) as char;
      assert (front + [last])[..|front|] == front;
    } else {
      assert [('0' as int + n) as char][..0] == "";
    }
  }

  lemma {:induction false} ValueOfZeros(n: nat, digits: string)
    ensures Value(Zeros(n) + digits) == Value(digits)
    decreases |digits|, n
  {
    if digits == "" {
      assert Zeros(n) + digits == Zeros(n);
      if n > 0 {
        ValueOfZeros(n - 1, "");
        assert Zeros(n)[..n - 1] == Zeros(n - 1) + "";
      }
    } else {
      ValueOfZeros(n, digits[..|digits| - 1]);
      assert (Zeros(n) + digits)[..|Zeros(n) + digits| - 1] == Zeros(n) + digits[..|digits| - 1];
    }
  }

  lemma PaddedReadsBack(n: nat, width: nat)
    ensures Value(Padded(n, width)) == n && |Padded(n, width)| >= width
    ensures width == 2 && n < 100 ==> |Padded(n, width)| == 2
  {
    ValueOfDecimal(n);
    ValueOfZeros(if |Items.Decimal(n)| < width then width - |Items.Decimal(n)| else 0, Items.Decimal(n));
  }

  /** The fields of `Y-MM-DD`. */
  function ReadDate(text: string): (int, int, int)
    requires |text| >= 6
  {
    var n := |text| - 6;
    (Value(text[..n]), Value(text[n + 1..n + 3]), Value(text[n + 4..]))
  }

  lemma JoinedReads(y: string, m: string, d: string)
    requires |m| == 2 && |d| == 2
    ensures var text := y + "-" + m + "-" + d;
            && |text| == |y| + 6 && text[|y|] == '-' && text[|y| + 3] == '-'
            && ReadDate(text) == (Value(y), Value(m), Value(d))
  {
    hide Value;
    var text := y + "-" + m + "-" + d;
    assert text[..|y|] == y;
    assert text[|y| + 1..|y| + 3] == m;
    assert text[|y| + 4..] == d;
  }

  /** The text is `YYYY-MM-DD`, the year at least four digits wide, and reads back field by
      field to the date of the input's day. */
  lemma TextReadsBack(unixMs: nat)
    ensures var text := CivilDateUtc(unixMs);
            && |text| >= 10 && text[|text| - 6] == '-' && text[|text| - 3] == '-'
            && ReadDate(text) == CivilOf(unixMs / DAY_MS)
  {
    hide CivilOf, Padded, Value, ReadDate, CivilDateUtc, Items.Decimal;
    var days := unixMs / DAY_MS;
    CivilIsSmall(days);
    TextIs(unixMs);
    var (y, m, d) := CivilOf(days);
    PaddedReadsBack(y, 4);
    PaddedReadsBack(m, 2);
    PaddedReadsBack(d, 2);
    JoinedReads(Padded(y, 4), Padded(m, 2), Padded(d, 2));
  }

  lemma CivilIsSmall(days: nat)
    ensures var (y, m, d) := CivilOf(days); y >= 0 && 0 <= m < 100 && 0 <= d < 100
  {
    hide CivilOf, DayNumber;
    CivilOfIsExact(days);
    MonthLengths(CivilOf(days).0, CivilOf(days).1);
  }

  lemma TextIs(unixMs: nat)
    ensures var (y, m, d) := CivilOf(unixMs / DAY_MS);
            y >= 0 && m >= 0 && d >= 0 && CivilDateUtc(unixMs) == Padded(y, 4) + "-" + Padded(m, 2) + "-" + Padded(d, 2)
  {
    hide CivilOf, Padded;
    CivilIsSmall(unixMs / DAY_MS);
  }

  lemma MonthLengths(year: nat, month: nat)
    ensures MonthLength(year, month) <= 31
  {
  }
}
