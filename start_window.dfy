/**
 * The start-date window of the Broadberry detail page: the date of the
 * structured-data event is kept only when it falls inside a window that a
 * day counter walks out from today, and is cleared otherwise.
 *
 * The counter starts at today's day of month and takes one step per turn:
 * it goes up by one while it is below the length of today's month, and
 * otherwise restarts at 1 and moves the month counter on. The decision is
 * made when seven steps have been taken: the date is kept when its day of
 * month, minus one, is at most the day counter and its month equals the
 * month counter. The month counter is never wrapped back to January, and
 * the year is never compared.
 */
module StartWindow {
  import opened Js
  import opened Capture

  /** The run's "now" as the page script reads it: `getDate()`, `getMonth() + 1`, `getFullYear()`. */
  datatype Today = Today(day: int, month: int, year: int)

  predicate LeapYear(year: int)
  {
    year % 4 == 0 && (year % 100 != 0 || year % 400 == 0)
  }

  /** `new Date(year, month, 0).getDate()`: the length of month `month` (1-12)
      of the Gregorian calendar; a month outside 1-12 is carried into the
      year, as the `Date` constructor does. */
  function DaysInMonth(month: int, year: int): (n: int)
    ensures 28 <= n <= 31
  {
    var m := (month - 1) % 12 + 1;
    var y := year + (month - 1) / 12;
    if m == 2 then (if LeapYear(y) then 29 else 28)
    else if m == 4 || m == 6 || m == 9 || m == 11 then 30
    else 31
  }

  /** A real calendar date for `today`. */
  predicate ValidToday(t: Today)
  {
    1 <= t.month <= 12 && 1 <= t.day <= DaysInMonth(t.month, t.year)
  }

  /** The twelve months make up a Gregorian year. */
  lemma YearLength(year: int)
    ensures DaysInMonth(1, year) + DaysInMonth(2, year) + DaysInMonth(3, year) + DaysInMonth(4, year)
          + DaysInMonth(5, year) + DaysInMonth(6, year) + DaysInMonth(7, year) + DaysInMonth(8, year)
          + DaysInMonth(9, year) + DaysInMonth(10, year) + DaysInMonth(11, year) + DaysInMonth(12, year)
          == if LeapYear(year) then 366 else 365
  {
  }

  /** Month 0 is the December before, month 13 the January after. */
  lemma DaysInMonthCarry(year: int)
    ensures DaysInMonth(13, year) == DaysInMonth(1, year + 1)
    ensures DaysInMonth(0, year) == DaysInMonth(12, year - 1)
  {
  }

  /** The day and month counters after `n` steps from day `d` of month `m`,
      with `len` the length of today's month. */
  function Advance(d: int, m: int, len: int, n: nat): (int, int)
  {
    if n == 0 then (d, m)
    else
      var p := Advance(d, m, len, n - 1);
      if p.0 < len then (p.0 + 1, p.1) else (1, p.1 + 1)
  }

  /** The counters after seven steps from today. */
  function Window(today: Today): (int, int)
  {
    Advance(today.day, today.month, DaysInMonth(today.month, today.year), 7)
  }

  /** The value the walk leaves in `startDt`: the date's ISO string when it is
      valid and inside the window, None (the source's null) otherwise. */
  function WalkDecision(today: Today, date: Option<DateInfo>): Option<IsoString>
  {
    var w := Window(today);
    if date.Some? && date.value.day - 1 <= w.0 && date.value.month == w.1 then Some(date.value.iso) else None
  }

  /** `eventDayOfMonth <= dateDayInMonth`, where an invalid date gives NaN and NaN compares false. */
  predicate NumAtMost(a: Number, b: int)
  {
    a.Num? && a.n <= b
  }

  /** The walk as the page script runs it: eight turns of the loop, the
      decision taken at the seventh. `startDt0` is the event's value before. */
  method Walk(today: Today, eventDate: Option<DateInfo>, startDt0: Option<IsoString>) returns (startDt: Option<IsoString>)
    ensures startDt == WalkDecision(today, eventDate)
  {
    var dateDayInMonth := today.day;
    var month := today.month;
    var monthLen := DaysInMonth(month, today.year);
    var eventDayOfMonth: Number := if eventDate.Some? then Num(eventDate.value.day - 1) else NaN;
    var eventMonth: Number := if eventDate.Some? then Num(eventDate.value.month) else NaN;
    var y := 0;
    startDt := startDt0;
    for x := 0 to 8
      invariant y == x
      invariant (dateDayInMonth, month) == Advance(today.day, today.month, monthLen, x)
      invariant x >= 7 ==> startDt == WalkDecision(today, eventDate)
    {
      if dateDayInMonth < monthLen {
        dateDayInMonth := dateDayInMonth + 1;
        y := y + 1;
      } else {
        dateDayInMonth := 1;
        y := y + 1;
        month := month + 1;
      }
      if y == 7 && NumAtMost(eventDayOfMonth, dateDayInMonth) && eventMonth == Num(month) {
        startDt := Some(eventDate.value.iso);
      } else if y == 7 {
        startDt := None;
      }
    }
  }

  /** From a real day of the month, at most one month end is passed in up to
      `len` steps, so the counters have a closed form. */
  lemma {:induction false} AdvanceClosedForm(d: int, m: int, len: int, n: nat)
    requires 1 <= d <= len && n <= len
    ensures Advance(d, m, len, n) == if d + n <= len then (d + n, m) else (d + n - len, m + 1)
  {
    if n > 0 {
      AdvanceClosedForm(d, m, len, n - 1);
    }
  }

  /** The window is the seven days after today: the date is kept exactly when
      it is valid and in today's month at most eight days on (any earlier day
      of the month included), or, near the month end, in the next month up to
      the same distance past the month end. */
  lemma WalkAccepts(today: Today, date: Option<DateInfo>)
    requires ValidToday(today)
    ensures WalkDecision(today, date).Some? <==>
      date.Some? &&
      var len := DaysInMonth(today.month, today.year);
      if today.day + 7 <= len then date.value.month == today.month && date.value.day <= today.day + 8
      else date.value.month == today.month + 1 && date.value.day <= today.day + 8 - len
    ensures WalkDecision(today, date).Some? ==> WalkDecision(today, date).value == date.value.iso
  {
    AdvanceClosedForm(today.day, today.month, DaysInMonth(today.month, today.year), 7);
  }

  /** In the last week of December the month counter reaches 13, which no
      date has, so every date is cleared. */
  lemma WalkDecemberEnd(today: Today, date: Option<DateInfo>)
    requires ValidToday(today) && today.month == 12 && today.day > 24
    requires date.Some? ==> date.value.month <= 12
    ensures WalkDecision(today, date).None?
  {
    WalkAccepts(today, date);
  }

  /** On 28 October a concert on 30 October, two days away, is cleared:
      the window has moved on to 4 November. */
  lemma WalkOctoberExample(iso: IsoString, hours: int, millis: int)
    ensures Window(Today(28, 10, 2026)) == (4, 11)
    ensures WalkDecision(Today(28, 10, 2026), Some(DateInfo(iso, 30, 10, hours, millis))).None?
  {
    AdvanceClosedForm(28, 10, 31, 7);
  }
}
