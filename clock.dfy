/**
 * Wall-clock values as Python's datetime holds them (to the second), their
 * strftime renderings, and the calendar arithmetic of `now - timedelta(days=7)`.
 */
module Clock {
  import opened Results
  import opened Text

  datatype Date = Date(year: int, month: int, day: int)

  datatype DateTime = DateTime(date: Date, hour: int, minute: int, second: int)

  /** Gregorian leap years, as datetime uses them for every year 1..9999. */
  predicate IsLeap(y: int) {
    y % 4 == 0 && (y % 100 != 0 || y % 400 == 0)
  }

  function DaysInMonth(y: int, m: int): (n: int)
    requires 1 <= m <= 12
    ensures 28 <= n <= 31
  {
    if m == 2 then (if IsLeap(y) then 29 else 28)
    else if m == 4 || m == 6 || m == 9 || m == 11 then 30
    else 31
  }

  /** datetime's range: MINYEAR = 1, MAXYEAR = 9999. */
  predicate ValidDate(d: Date) {
    1 <= d.year <= 9999 && 1 <= d.month <= 12 && 1 <= d.day <= DaysInMonth(d.year, d.month)
  }

  predicate Valid(t: DateTime) {
    ValidDate(t.date) && 0 <= t.hour < 24 && 0 <= t.minute < 60 && 0 <= t.second < 60
  }

  /** Days in the months of year y before month m. */
  function DaysBeforeMonth(y: int, m: int): (n: nat)
    requires 1 <= m <= 13
    ensures m > 1 ==> n >= 31
  {
    if m == 1 then 0 else DaysBeforeMonth(y, m - 1) + DaysInMonth(y, m - 1)
  }

  /** Days in the years 1..y-1. */
  function DaysBeforeYear(y: int): (n: nat)
    requires y >= 1
    ensures y > 1 ==> n >= 365
  {
    var p := y - 1;
    365 * p + p / 4 - p / 100 + p / 400
  }

  /** The proleptic Gregorian ordinal of a date: 0001-01-01 is day 1 (date.toordinal()). */
  function DayNumber(d: Date): int
    requires ValidDate(d)
  {
    DaysBeforeYear(d.year) + DaysBeforeMonth(d.year, d.month) + d.day
  }

  /**
   * The date part of `d - timedelta(days=7)`; None when that falls before
   * 0001-01-01, where datetime raises OverflowError.
   */
  function SevenDaysBefore(d: Date): Option<Date>
    requires ValidDate(d)
  {
    if d.day > 7 then Some(Date(d.year, d.month, d.day - 7))
    else if d.month > 1 then Some(Date(d.year, d.month - 1, DaysInMonth(d.year, d.month - 1) + d.day - 7))
    else if d.year > 1 then Some(Date(d.year - 1, 12, 31 + d.day - 7))
    else None
  }

  lemma LeapStep(p: int)
    requires p >= 1
    ensures p / 4 - (p - 1) / 4 == (if p % 4 == 0 then 1 else 0)
    ensures p / 100 - (p - 1) / 100 == (if p % 100 == 0 then 1 else 0)
    ensures p / 400 - (p - 1) / 400 == (if p % 400 == 0 then 1 else 0)
  {
  }

  /** A year holds 365 days, 366 in a leap year. */
  lemma {:induction false} YearLength(y: int)
    requires 1 <= y < 9999
    ensures DaysBeforeYear(y + 1) == DaysBeforeYear(y) + DaysBeforeMonth(y, 13)
  {
    LeapStep(y);
    var f := if IsLeap(y) then 1 else 0;
    assert DaysBeforeMonth(y, 2) == 31;
    assert DaysBeforeMonth(y, 3) == 59 + f;
    assert DaysBeforeMonth(y, 4) == 90 + f;
    assert DaysBeforeMonth(y, 5) == 120 + f;
    assert DaysBeforeMonth(y, 6) == 151 + f;
    assert DaysBeforeMonth(y, 7) == 181 + f;
    assert DaysBeforeMonth(y, 8) == 212 + f;
    assert DaysBeforeMonth(y, 9) == 243 + f;
    assert DaysBeforeMonth(y, 10) == 273 + f;
    assert DaysBeforeMonth(y, 11) == 304 + f;
    assert DaysBeforeMonth(y, 12) == 334 + f;
    assert DaysBeforeMonth(y, 13) == 365 + f;
  }

  /**
   * The cutoff is exactly seven days earlier on the calendar, and it exists
   * exactly when the date is later than 0001-01-07.
   */
  lemma SevenDaysBeforeIsSevenDaysEarlier(d: Date)
    requires ValidDate(d)
    ensures SevenDaysBefore(d).Some? <==> DayNumber(d) > 7
    ensures SevenDaysBefore(d).Some? ==>
      ValidDate(SevenDaysBefore(d).value) && DayNumber(SevenDaysBefore(d).value) == DayNumber(d) - 7
  {
    if d.day <= 7 && d.month == 1 && d.year > 1 {
      YearLength(d.year - 1);
    }
  }

  /** strftime('%Y-%m-%d'). */
  function DateString(d: Date): (s: string)
    requires ValidDate(d)
    ensures |s| == 10 && s[4] == '-' && s[7] == '-'
  {
    Pad4(d.year) + "-" + Pad2(d.month) + "-" + Pad2(d.day)
  }

  function TimeString(t: DateTime): (s: string)
    requires Valid(t)
    ensures |s| == 8
  {
    Pad2(t.hour) + ":" + Pad2(t.minute) + ":" + Pad2(t.second)
  }

  /** strftime('%Y-%m-%d %H:%M:%S'), the stamp of the report and reminder logs. */
  function IsoStamp(t: DateTime): (s: string)
    requires Valid(t)
    ensures |s| == 19
  {
    DateString(t.date) + " " + TimeString(t)
  }

  /** strftime('%d/%m/%Y-%H:%M:%S'), the stamp of the heartbeat log. */
  function HeartbeatStamp(t: DateTime): (s: string)
    requires Valid(t)
    ensures |s| == 19
  {
    Pad2(t.date.day) + "/" + Pad2(t.date.month) + "/" + Pad4(t.date.year) + "-" + TimeString(t)
  }

  /** Reads back a DD/MM/YYYY-HH:MM:SS stamp; None for text of any other shape. */
  function ParseHeartbeatStamp(s: string): Option<DateTime> {
    if |s| == 19 && s[2] == '/' && s[5] == '/' && s[10] == '-' && s[13] == ':' && s[16] == ':'
       && AllDigits(s[0..2]) && AllDigits(s[3..5]) && AllDigits(s[6..10])
       && AllDigits(s[11..13]) && AllDigits(s[14..16]) && AllDigits(s[17..19])
    then
      var t := DateTime(Date(ParseDigits(s[6..10]), ParseDigits(s[3..5]), ParseDigits(s[0..2])),
                        ParseDigits(s[11..13]), ParseDigits(s[14..16]), ParseDigits(s[17..19]));
      if Valid(t) then Some(t) else None
    else None
  }

  /** Reads back a YYYY-MM-DD HH:MM:SS stamp; None for text of any other shape. */
  function ParseIsoStamp(s: string): Option<DateTime> {
    if |s| == 19 && s[4] == '-' && s[7] == '-' && s[10] == ' ' && s[13] == ':' && s[16] == ':'
       && AllDigits(s[0..4]) && AllDigits(s[5..7]) && AllDigits(s[8..10])
       && AllDigits(s[11..13]) && AllDigits(s[14..16]) && AllDigits(s[17..19])
    then
      var t := DateTime(Date(ParseDigits(s[0..4]), ParseDigits(s[5..7]), ParseDigits(s[8..10])),
                        ParseDigits(s[11..13]), ParseDigits(s[14..16]), ParseDigits(s[17..19]));
      if Valid(t) then Some(t) else None
    else None
  }

  /** The heartbeat stamp is DD/MM/YYYY-HH:MM:SS and determines the instant it was taken from. */
  lemma HeartbeatStampRoundTrip(t: DateTime)
    requires Valid(t)
    ensures ParseHeartbeatStamp(HeartbeatStamp(t)) == Some(t)
  {
    var s := HeartbeatStamp(t);
    assert s[0..2] == Pad2(t.date.day);
    assert s[3..5] == Pad2(t.date.month);
    assert s[6..10] == Pad4(t.date.year);
    assert s[11..13] == Pad2(t.hour);
    assert s[14..16] == Pad2(t.minute);
    assert s[17..19] == Pad2(t.second);
  }

  /** The report stamp is YYYY-MM-DD HH:MM:SS and determines the instant it was taken from. */
  lemma IsoStampRoundTrip(t: DateTime)
    requires Valid(t)
    ensures ParseIsoStamp(IsoStamp(t)) == Some(t)
  {
    var s := IsoStamp(t);
    assert s[0..4] == Pad4(t.date.year);
    assert s[5..7] == Pad2(t.date.month);
    assert s[8..10] == Pad2(t.date.day);
    assert s[11..13] == Pad2(t.hour);
    assert s[14..16] == Pad2(t.minute);
    assert s[17..19] == Pad2(t.second);
  }
}
