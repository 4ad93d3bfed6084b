/** Instants in nanoseconds since the Unix epoch, and their RFC 3339 text in UTC. */
module Timestamp {
  import opened Options
  import opened Decimals

  const NANOS_PER_SECOND := 1_000_000_000
  const NANOS_PER_MICROSECOND := 1_000
  const SECONDS_PER_DAY := 86_400

  type Instant = int

  /** time.Truncate(time.Microsecond). */
  function TruncateToMicrosecond(t: Instant): (r: Instant)
    ensures r % NANOS_PER_MICROSECOND == 0 && 0 <= t - r < NANOS_PER_MICROSECOND
  {
    t / NANOS_PER_MICROSECOND * NANOS_PER_MICROSECOND
  }

  function FloorToSecond(t: Instant): (r: Instant)
    ensures r % NANOS_PER_SECOND == 0 && 0 <= t - r < NANOS_PER_SECOND
  {
    t / NANOS_PER_SECOND * NANOS_PER_SECOND
  }

  predicate WholeSecond(t: Instant) {
    t % NANOS_PER_SECOND == 0
  }

  // ---- Proleptic Gregorian calendar ----

  predicate IsLeap(year: int) {
    year % 4 == 0 && (year % 100 != 0 || year % 400 == 0)
  }

  function YearLength(year: int): int {
    if IsLeap(year) then 366 else 365
  }

  function DaysIn(year: int, month: int): int {
    if month == 2 then (if IsLeap(year) then 29 else 28)
    else if month in {4, 6, 9, 11} then 30
    else 31
  }

  /** The number of days in the years 0 to year - 1. */
  function DaysBeforeYear(year: nat): nat {
    if year == 0 then 0 else DaysBeforeYear(year - 1) + YearLength(year - 1)
  }

  function DaysBeforeMonth(year: int, month: int): (d: nat)
    requires 1 <= month <= 13
  {
    if month == 1 then 0 else DaysBeforeMonth(year, month - 1) + DaysIn(year, month - 1)
  }

  datatype Date = Date(year: int, month: int, day: int)

  predicate ValidDate(date: Date) {
    && 1 <= date.month <= 12
    && 1 <= date.day <= DaysIn(date.year, date.month)
  }

  /** Days since 0000-01-01. */
  function DayNumber(date: Date): int
    requires ValidDate(date) && date.year >= 0
  {
    DaysBeforeYear(date.year) + DaysBeforeMonth(date.year, date.month) + date.day - 1
  }

  /** The year holding the day that comes `day` days after the start of `year`, with the day of that year. */
  function YearForward(day: nat, year: nat): (r: (nat, nat))
    ensures r.1 < YearLength(r.0)
    ensures DaysBeforeYear(r.0) + r.1 == DaysBeforeYear(year) + day
  {
    if day < YearLength(year) then (year, day) else YearForward(day - YearLength(year), year + 1)
  }

  /** The same for a day before the start of `year` + 1, walking back. */
  function YearBackward(day: int, year: int): (r: (int, nat))
    requires day < 0 && year < 0
    ensures r.0 < 0 && r.1 < YearLength(r.0)
    decreases -day
  {
    if day + YearLength(year) >= 0 then (year, day + YearLength(year))
    else YearBackward(day + YearLength(year), year - 1)
  }

  function MonthForward(year: int, day: nat, month: int): (r: (int, nat))
    requires 1 <= month <= 12
    requires DaysBeforeMonth(year, month) + day < DaysBeforeMonth(year, 13)
    ensures 1 <= r.0 <= 12 && r.1 < DaysIn(year, r.0)
    ensures DaysBeforeMonth(year, r.0) + r.1 == DaysBeforeMonth(year, month) + day
    decreases 12 - month
  {
    if day < DaysIn(year, month) then (month, day)
    else MonthForward(year, day - DaysIn(year, month), month + 1)
  }

  lemma MonthsFillYear(year: int)
    ensures DaysBeforeMonth(year, 13) == YearLength(year)
  {
    assert DaysBeforeMonth(year, 2) == DaysBeforeMonth(year, 1) + DaysIn(year, 1);
    assert DaysBeforeMonth(year, 3) == DaysBeforeMonth(year, 2) + DaysIn(year, 2);
    assert DaysBeforeMonth(year, 4) == DaysBeforeMonth(year, 3) + DaysIn(year, 3);
    assert DaysBeforeMonth(year, 5) == DaysBeforeMonth(year, 4) + DaysIn(year, 4);
    assert DaysBeforeMonth(year, 6) == DaysBeforeMonth(year, 5) + DaysIn(year, 5);
    assert DaysBeforeMonth(year, 7) == DaysBeforeMonth(year, 6) + DaysIn(year, 6);
    assert DaysBeforeMonth(year, 8) == DaysBeforeMonth(year, 7) + DaysIn(year, 7);
    assert DaysBeforeMonth(year, 9) == DaysBeforeMonth(year, 8) + DaysIn(year, 8);
    assert DaysBeforeMonth(year, 10) == DaysBeforeMonth(year, 9) + DaysIn(year, 9);
    assert DaysBeforeMonth(year, 11) == DaysBeforeMonth(year, 10) + DaysIn(year, 10);
    assert DaysBeforeMonth(year, 12) == DaysBeforeMonth(year, 11) + DaysIn(year, 11);
    assert DaysBeforeMonth(year, 13) == DaysBeforeMonth(year, 12) + DaysIn(year, 12);
  }

  function DateOf(day: int): (date: Date)
    ensures ValidDate(date)
    ensures day >= 0 <==> date.year >= 0
    ensures day >= 0 ==> DayNumber(date) == day
  {
    var (year, dayOfYear) := if day >= 0 then YearForward(day, 0) else YearBackward(day, -1);
    MonthsFillYear(year);
    var (month, dayOfMonth) := MonthForward(year, dayOfYear, 1);
    Date(year, month, dayOfMonth + 1)
  }

  /** The Unix epoch, 1970-01-01, as a day number. */
  const EPOCH_DAY: int := DaysBeforeYear(1970)

  function DateAt(t: Instant): Date {
    DateOf(t / NANOS_PER_SECOND / SECONDS_PER_DAY + EPOCH_DAY)
  }

  /** The year of an instant in UTC. */
  function YearOf(t: Instant): int {
    DateAt(t).year
  }

  // ---- RFC 3339 ----

  /** The year as time.Format writes it: four digits at least, a sign when negative. */
  function FormatYear(year: int): string {
    if 0 <= year < 10_000 then Pad4(year)
    else if year < 0 then "-" + (if -year < 10_000 then Pad4(-year) else Decimal(-year))
    else Decimal(year)
  }

  /** t.UTC().Format(time.RFC3339). */
  function FormatRFC3339(t: Instant): string {
    var date := DateAt(t);
    var second := t / NANOS_PER_SECOND % SECONDS_PER_DAY;
    FormatYear(date.year) + FormatRest(date, second)
  }

  function FormatRest(date: Date, second: nat): (s: string)
    requires ValidDate(date) && second < SECONDS_PER_DAY
    ensures |s| == 16 && s[0] == '-'
  {
    "-" + Pad2(date.month) + "-" + Pad2(date.day)
    + "T" + Pad2(second / 3600) + ":" + Pad2(second / 60 % 60) + ":" + Pad2(second % 60) + "Z"
  }

  /** The length of the run of digits at the start of s. */
  function DigitRun(s: string): (n: nat)
    ensures n <= |s|
    ensures AllDigits(s[..n])
    ensures n == |s| || !IsDigit(s[n])
  {
    if s != "" && IsDigit(s[0]) then
      var n := 1 + DigitRun(s[1..]);
      assert forall i :: 1 <= i < n ==> s[i] == s[1..][i - 1];
      n
    else 0
  }

  /** Digits after the decimal point as nanoseconds; digits past the ninth are dropped. */
  function FractionNanos(digits: string): nat
    requires AllDigits(digits)
  {
    if |digits| >= 9 then Number(digits[..9]) else Number(digits + seq(9 - |digits|, _ => '0'))
  }

  /** A zone designator as its offset from UTC in seconds. */
  function ParseZone(s: string): Option<int> {
    if s == "Z" then Some(0)
    else if |s| == 6 && s[0] in {'+', '-'} && AllDigits(s[1..3]) && s[3] == ':' && AllDigits(s[4..6])
            && Number(s[1..3]) < 24 && Number(s[4..6]) < 60 then
      var offset := Number(s[1..3]) * 3600 + Number(s[4..6]) * 60;
      Some(if s[0] == '-' then -offset else offset)
    else None
  }

  predicate WellShaped(s: string) {
    && |s| >= 20
    && AllDigits(s[0..4]) && s[4] == '-' && AllDigits(s[5..7]) && s[7] == '-' && AllDigits(s[8..10])
    && s[10] == 'T'
    && AllDigits(s[11..13]) && s[13] == ':' && AllDigits(s[14..16]) && s[16] == ':' && AllDigits(s[17..19])
  }

  /** time.Parse(time.RFC3339, s) as an instant. */
  function ParseRFC3339(s: string): Option<Instant> {
    if !WellShaped(s) then None
    else
      var date := Date(Number(s[0..4]), Number(s[5..7]), Number(s[8..10]));
      var hour, minute, second := Number(s[11..13]), Number(s[14..16]), Number(s[17..19]);
      if !ValidDate(date) || hour > 23 || minute > 59 || second > 59 then None
      else
        var run := if s[19] == '.' then DigitRun(s[20..]) else 0;
        var nanos := if run > 0 then FractionNanos(s[20..][..run]) else 0;
        var zone := if run > 0 then s[20 + run..] else s[19..];
        match ParseZone(zone)
        case None => None
        case Some(offset) =>
          Some((EpochSeconds(date, hour, minute, second) - offset) * NANOS_PER_SECOND + nanos)
  }

  function EpochSeconds(date: Date, hour: nat, minute: nat, second: nat): int
    requires ValidDate(date) && date.year >= 0
  {
    (DayNumber(date) - EPOCH_DAY) * SECONDS_PER_DAY + hour * 3600 + minute * 60 + second
  }

  lemma TimeOfDay(second: nat)
    requires second < SECONDS_PER_DAY
    ensures second / 3600 < 24
    ensures second / 3600 * 3600 + second / 60 % 60 * 60 + second % 60 == second
  {
    var minutes := second / 60;
    assert second == minutes * 60 + second % 60;
    assert minutes / 60 == second / 3600;
    assert minutes == second / 3600 * 60 + minutes % 60;
  }

  lemma FormattedFields(year: string, date: Date, second: nat)
    requires |year| == 4 && ValidDate(date) && second < SECONDS_PER_DAY
    ensures
      var s := year + FormatRest(date, second);
      && |s| == 20
      && s[0..4] == year && s[4] == '-' && s[5..7] == Pad2(date.month)
      && s[7] == '-' && s[8..10] == Pad2(date.day) && s[10] == 'T'
      && s[11..13] == Pad2(second / 3600) && s[13] == ':' && s[14..16] == Pad2(second / 60 % 60)
      && s[16] == ':' && s[17..19] == Pad2(second % 60) && s[19..] == "Z"
  {
    var s := year + FormatRest(date, second);
    var month, day := Pad2(date.month), Pad2(date.day);
    var hour, minute, sec := Pad2(second / 3600), Pad2(second / 60 % 60), Pad2(second % 60);
    assert s[5] == month[0] && s[6] == month[1] && s[8] == day[0] && s[9] == day[1];
    assert s[11] == hour[0] && s[12] == hour[1] && s[14] == minute[0] && s[15] == minute[1];
    assert s[17] == sec[0] && s[18] == sec[1];
  }

  /** Twenty characters ending in Z are read field by field. */
  lemma ParseFields(s: string, date: Date, hour: nat, minute: nat, second: nat)
    requires WellShaped(s) && |s| == 20 && s[19..] == "Z"
    requires date == Date(Number(s[0..4]), Number(s[5..7]), Number(s[8..10])) && ValidDate(date)
    requires hour == Number(s[11..13]) < 24
    requires minute == Number(s[14..16]) < 60
    requires second == Number(s[17..19]) < 60
    ensures ParseRFC3339(s) == Some(EpochSeconds(date, hour, minute, second) * NANOS_PER_SECOND)
  {
    assert s[19] == s[19..][0] == 'Z';
  }

  lemma EpochSecondsOf(t: Instant)
    requires YearOf(t) >= 0
    ensures
      var second := t / NANOS_PER_SECOND % SECONDS_PER_DAY;
      EpochSeconds(DateAt(t), second / 3600, second / 60 % 60, second % 60) == t / NANOS_PER_SECOND
  {
    var total := t / NANOS_PER_SECOND;
    TimeOfDay(total % SECONDS_PER_DAY);
    assert DayNumber(DateAt(t)) - EPOCH_DAY == total / SECONDS_PER_DAY;
  }

  lemma ParseFormatInRange(t: Instant)
    requires 0 <= YearOf(t) <= 9999
    ensures ParseRFC3339(FormatRFC3339(t)) == Some(FloorToSecond(t))
  {
    var date := DateAt(t);
    var second := t / NANOS_PER_SECOND % SECONDS_PER_DAY;
    FormattedFields(Pad4(date.year), date, second);
    TimeOfDay(second);
    ParseFields(FormatRFC3339(t), date, second / 3600, second / 60 % 60, second % 60);
    EpochSecondsOf(t);
  }

  /** Formatting and parsing floors to the second exactly when the year has four digits; otherwise
      the text is rejected. */
  lemma ParseFormat(t: Instant)
    ensures 0 <= YearOf(t) <= 9999 ==> ParseRFC3339(FormatRFC3339(t)) == Some(FloorToSecond(t))
    ensures !(0 <= YearOf(t) <= 9999) ==> ParseRFC3339(FormatRFC3339(t)) == None
  {
    var year := YearOf(t);
    var s := FormatRFC3339(t);
    if 0 <= year <= 9999 {
      ParseFormatInRange(t);
    } else if year < 0 {
      assert s[0..4][0] == '-';
    } else {
      assert s[4] == Decimal(year)[4];
    }
  }
}
