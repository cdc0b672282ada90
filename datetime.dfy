/** The slice of Python's `datetime` that backend/utils/search.py relies on:
    aware and naive date-times, conversion to UTC (`astimezone`) and
    `isoformat`. */
module DateTimes {
  import opened Base

  predicate IsLeap(y: int) {
    y % 4 == 0 && (y % 100 != 0 || y % 400 == 0)
  }

  function DaysInMonth(y: int, m: int): int
    requires 1 <= m <= 12
  {
    if m == 2 then (if IsLeap(y) then 29 else 28)
    else if m == 4 || m == 6 || m == 9 || m == 11 then 30
    else 31
  }

  function YearLength(y: int): int {
    if IsLeap(y) then 366 else 365
  }

  /** A calendar date of the proleptic Gregorian calendar; the year is left
      unbounded so that a shift past year 1 or 9999 can be represented and
      then rejected. */
  datatype Date = Date(year: int, month: int, day: int)

  predicate ValidDate(d: Date) {
    1 <= d.month <= 12 && 1 <= d.day <= DaysInMonth(d.year, d.month)
  }

  /** A `datetime`: `offset` is `utcoffset()` in seconds, `None` for a naive
      value. Only the values Python can construct are admitted. */
  datatype DateTime = DateTime(date: Date, hour: int, minute: int, second: int,
                               micro: int, offset: Option<int>)

  predicate ValidDateTime(t: DateTime) {
    && ValidDate(t.date) && 1 <= t.date.year <= 9999
    && 0 <= t.hour < 24 && 0 <= t.minute < 60 && 0 <= t.second < 60
    && 0 <= t.micro < 1000000
    && (t.offset.Some? ==> -86400 < t.offset.value < 86400)
  }

  type DateTimeValue = t: DateTime | ValidDateTime(t)
    witness DateTime(Date(1970, 1, 1), 0, 0, 0, 0, None)

  // ---------------------------------------------------------------------
  // Day arithmetic

  function NextDay(d: Date): (r: Date)
    requires ValidDate(d)
    ensures ValidDate(r)
  {
    if d.day < DaysInMonth(d.year, d.month) then Date(d.year, d.month, d.day + 1)
    else if d.month < 12 then Date(d.year, d.month + 1, 1)
    else Date(d.year + 1, 1, 1)
  }

  function PrevDay(d: Date): (r: Date)
    requires ValidDate(d)
    ensures ValidDate(r)
  {
    if d.day > 1 then Date(d.year, d.month, d.day - 1)
    else if d.month > 1 then Date(d.year, d.month - 1, DaysInMonth(d.year, d.month - 1))
    else Date(d.year - 1, 12, 31)
  }

  /** Days from 0001-01-01 to the first day of year `y`. */
  function YearStart(y: int): int
    decreases if y >= 1 then y - 1 else 1 - y
  {
    if y == 1 then 0
    else if y > 1 then YearStart(y - 1) + YearLength(y - 1)
    else YearStart(y + 1) - YearLength(y)
  }

  function DaysBeforeMonth(y: int, m: int): int
    requires 1 <= m <= 13
  {
    if m == 1 then 0 else DaysBeforeMonth(y, m - 1) + DaysInMonth(y, m - 1)
  }

  /** The ordinal day number, counting 0001-01-01 as day 1. */
  function DayNumber(d: Date): int
    requires 1 <= d.month <= 12
  {
    YearStart(d.year) + DaysBeforeMonth(d.year, d.month) + d.day
  }

  lemma YearStartStep(y: int)
    ensures YearStart(y + 1) == YearStart(y) + YearLength(y)
  {
  }

  lemma DaysBeforeYearEnd(y: int)
    ensures DaysBeforeMonth(y, 12) + 31 == YearLength(y)
  {
    var feb := DaysInMonth(y, 2);
    assert DaysBeforeMonth(y, 2) == 31;
    assert DaysBeforeMonth(y, 3) == 31 + feb;
    assert DaysBeforeMonth(y, 4) == 62 + feb;
    assert DaysBeforeMonth(y, 5) == 92 + feb;
    assert DaysBeforeMonth(y, 6) == 123 + feb;
    assert DaysBeforeMonth(y, 7) == 153 + feb;
    assert DaysBeforeMonth(y, 8) == 184 + feb;
    assert DaysBeforeMonth(y, 9) == 215 + feb;
    assert DaysBeforeMonth(y, 10) == 245 + feb;
    assert DaysBeforeMonth(y, 11) == 276 + feb;
    assert DaysBeforeMonth(y, 12) == 306 + feb;
  }

  lemma NewMonthNumber(y: int, m: int)
    requires 1 <= m < 12
    ensures DayNumber(Date(y, m + 1, 1)) == DayNumber(Date(y, m, DaysInMonth(y, m))) + 1
  {
    assert DaysBeforeMonth(y, m + 1) == DaysBeforeMonth(y, m) + DaysInMonth(y, m);
  }

  lemma NewYearNumber(y: int)
    ensures DayNumber(Date(y + 1, 1, 1)) == DayNumber(Date(y, 12, 31)) + 1
  {
    DaysBeforeYearEnd(y);
    YearStartStep(y);
  }

  lemma NextDayNewMonth(d: Date)
    requires ValidDate(d) && d.day == DaysInMonth(d.year, d.month) && d.month < 12
    ensures DayNumber(NextDay(d)) == DayNumber(d) + 1
  {
    NewMonthNumber(d.year, d.month);
  }

  lemma NextDayNewYear(d: Date)
    requires ValidDate(d) && d.day == DaysInMonth(d.year, d.month) && d.month == 12
    ensures DayNumber(NextDay(d)) == DayNumber(d) + 1
  {
    assert d == Date(d.year, 12, 31);
    assert NextDay(d) == Date(d.year + 1, 1, 1);
    NewYearNumber(d.year);
  }

  lemma PrevDayOldMonth(d: Date)
    requires ValidDate(d) && d.day == 1 && d.month > 1
    ensures DayNumber(PrevDay(d)) + 1 == DayNumber(d)
  {
    NewMonthNumber(d.year, d.month - 1);
  }

  lemma PrevDayOldYear(d: Date)
    requires ValidDate(d) && d.day == 1 && d.month == 1
    ensures DayNumber(PrevDay(d)) + 1 == DayNumber(d)
  {
    assert d == Date(d.year, 1, 1);
    assert PrevDay(d) == Date(d.year - 1, 12, 31);
    NewYearNumber(d.year - 1);
  }

  /** The next day is one day later. */
  lemma NextDayNumber(d: Date)
    requires ValidDate(d)
    ensures DayNumber(NextDay(d)) == DayNumber(d) + 1
  {
    if d.day == DaysInMonth(d.year, d.month) {
      if d.month < 12 {
        NextDayNewMonth(d);
      } else {
        NextDayNewYear(d);
      }
    }
  }

  /** The previous day is one day earlier. */
  lemma PrevDayNumber(d: Date)
    requires ValidDate(d)
    ensures DayNumber(PrevDay(d)) + 1 == DayNumber(d)
  {
    if d.day == 1 {
      if d.month > 1 {
        PrevDayOldMonth(d);
      } else {
        PrevDayOldYear(d);
      }
    }
  }

  // ---------------------------------------------------------------------
  // Conversion to UTC

  function SecondsOfDay(t: DateTime): int {
    t.hour * 3600 + t.minute * 60 + t.second
  }

  /** The instant a date-time denotes, in seconds since the start of
      0001-01-01 UTC (microseconds aside); a naive value is read as UTC. */
  function Instant(t: DateTime): int
    requires 1 <= t.date.month <= 12
  {
    DayNumber(t.date) * 86400 + SecondsOfDay(t) - t.offset.GetOr(0)
  }

  const OverflowMessage := "date value out of range"

  /** `value.astimezone(timezone.utc)` on an aware value: the same instant
      with offset zero, or an overflow when the UTC date leaves years
      1..9999. */
  function ToUtc(t: DateTimeValue): (r: Result<DateTimeValue>)
    requires t.offset.Some?
    ensures r.Ok? ==> Instant(r.value) == Instant(t)
    ensures r.Ok? ==> r.value.offset == Some(0) && r.value.micro == t.micro
    ensures r.Err? ==> r.error == OverflowMessage
  {
    var total := SecondsOfDay(t) - t.offset.value;
    var shift := if total < 0 then -1 else if total >= 86400 then 1 else 0;
    var secs := total - shift * 86400;
    var date := if shift == 1 then NextDay(t.date) else if shift == -1 then PrevDay(t.date) else t.date;
    assert DayNumber(date) == DayNumber(t.date) + shift by {
      if shift == 1 { NextDayNumber(t.date); }
      if shift == -1 { PrevDayNumber(t.date); }
    }
    if !(1 <= date.year <= 9999) then Err(OverflowMessage)
    else
      var u := DateTime(date, secs / 3600, secs % 3600 / 60, secs % 60, t.micro, Some(0));
      assert SecondsOfDay(u) == secs;
      Ok(u)
  }

  // ---------------------------------------------------------------------
  // isoformat

  function DatePart(d: Date): string
    requires d.year >= 0 && d.month >= 0 && d.day >= 0
  {
    PadNat(d.year, 4) + "-" + PadNat(d.month, 2) + "-" + PadNat(d.day, 2)
  }

  function TimePart(t: DateTimeValue): string {
    PadNat(t.hour, 2) + ":" + PadNat(t.minute, 2) + ":" + PadNat(t.second, 2)
      + (if t.micro != 0 then "." + PadNat(t.micro, 6) else "")
  }

  /** `+HH:MM`, with `:SS` only when the offset has seconds. */
  function OffsetPart(offset: Option<int>): string {
    match offset
    case None => ""
    case Some(o) =>
      var a := if o < 0 then -o else o;
      (if o < 0 then "-" else "+") + PadNat(a / 3600, 2) + ":" + PadNat(a % 3600 / 60, 2)
        + (if a % 60 != 0 then ":" + PadNat(a % 60, 2) else "")
  }

  /** `t.isoformat()`. */
  function IsoFormat(t: DateTimeValue): string {
    DatePart(t.date) + "T" + TimePart(t) + OffsetPart(t.offset)
  }
}
