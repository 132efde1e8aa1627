/**
 * The calendar difference `timeDiff(a, b)` used to show how long an invite
 * has left: both instants are broken into (year, month, day, hour, minute,
 * second) in one location, ordered, subtracted field by field and then
 * normalised by a borrow chain from seconds up to years.
 */
module Calendar {

  /** Broken-down wall-clock time in one location, as Go's Date() and Clock() return it. */
  datatype CivilTime = CivilTime(year: int, month: int, day: int, hour: int, minute: int, second: int)

  /** The six results of timeDiff, in Go's order. */
  datatype Diff = Diff(years: int, months: int, days: int, hours: int, minutes: int, seconds: int)

  const NoDiff := Diff(0, 0, 0, 0, 0, 0)

  predicate IsLeapYear(y: int)
  {
    y % 4 == 0 && (y % 100 != 0 || y % 400 == 0)
  }

  /** Gregorian month length; `m` is 1 (January) .. 12 (December). */
  function DaysIn(y: int, m: int): (n: int)
    requires 1 <= m <= 12
    ensures 28 <= n <= 31
  {
    if m == 2 then (if IsLeapYear(y) then 29 else 28)
    else if m == 4 || m == 6 || m == 9 || m == 11 then 30
    else 31
  }

  /**
   * The day of the month of Go's `time.Date(y, m, d, ...)` when `d` may run
   * past the end of month `m` by less than a month: the date rolls into the
   * following month (January of the next year after December, which has 31 days).
   */
  function NormalizedDay(y: int, m: int, d: int): (r: int)
    requires 1 <= m <= 12 && 1 <= d <= DaysIn(y, m) + 28
    ensures 1 <= r <= 31
    ensures d <= DaysIn(y, m) ==> r == d
    ensures d > DaysIn(y, m) ==> r + DaysIn(y, m) == d
  {
    if d <= DaysIn(y, m) then d else d - DaysIn(y, m)
  }

  /** Fields in the ranges Go's Date() and Clock() produce. */
  predicate Valid(t: CivilTime)
  {
    && 1 <= t.month <= 12
    && 1 <= t.day <= DaysIn(t.year, t.month)
    && 0 <= t.hour <= 23
    && 0 <= t.minute <= 59
    && 0 <= t.second <= 59
  }

  /** Strictly earlier, field by field from the year down: the order of instants in one location. */
  predicate Before(a: CivilTime, b: CivilTime)
  {
    if a.year != b.year then a.year < b.year
    else if a.month != b.month then a.month < b.month
    else if a.day != b.day then a.day < b.day
    else if a.hour != b.hour then a.hour < b.hour
    else if a.minute != b.minute then a.minute < b.minute
    else a.second < b.second
  }

  /** Go's a.After(b). */
  predicate After(a: CivilTime, b: CivilTime)
  {
    Before(b, a)
  }

  /**
   * Reference definition of the difference from the earlier time `a` to the
   * later time `b`, written with explicit borrow bits.
   */
  function BorrowDiff(a: CivilTime, b: CivilTime): Diff
    requires Valid(a)
  {
    var bs := if b.second < a.second then 1 else 0;
    var rawMinutes := b.minute - a.minute - bs;
    var bm := if rawMinutes < 0 then 1 else 0;
    var rawHours := b.hour - a.hour - bm;
    var bh := if rawHours < 0 then 1 else 0;
    var rawDays := b.day - a.day - bh;
    var bd := if rawDays < 0 then 1 else 0;
    var rawMonths := b.month - a.month - bd;
    var bmo := if rawMonths < 0 then 1 else 0;
    Diff(b.year - a.year - bmo, rawMonths + 12 * bmo, rawDays + DaysIn(a.year, a.month) * bd,
         rawHours + 24 * bh, rawMinutes + 60 * bm, b.second - a.second + 60 * bs)
  }

  /** timeDiff: the arguments are swapped when `a` is after `b`, so the order of the arguments does not matter. */
  function CalendarDiff(a: CivilTime, b: CivilTime): Diff
    requires Valid(a) && Valid(b)
  {
    if After(a, b) then BorrowDiff(b, a) else BorrowDiff(a, b)
  }

  /** Go's timeDiff, statement by statement. */
  method TimeDiff(a0: CivilTime, b0: CivilTime) returns (year: int, month: int, day: int, hour: int, min: int, sec: int)
    requires Valid(a0) && Valid(b0)
    ensures Diff(year, month, day, hour, min, sec) == CalendarDiff(a0, b0)
    ensures 0 <= sec <= 59 && 0 <= min <= 59 && 0 <= hour <= 23
    ensures 0 <= day <= 30 && 0 <= month <= 11 && year >= 0
  {
    var a, b := a0, b0;
    if After(a, b) {
      a, b := b, a;
    }
    year := b.year - a.year;
    month := b.month - a.month;
    day := b.day - a.day;
    hour := b.hour - a.hour;
    min := b.minute - a.minute;
    sec := b.second - a.second;
    if sec < 0 {
      sec := sec + 60;
      min := min - 1;
    }
    if min < 0 {
      min := min + 60;
      hour := hour - 1;
    }
    if hour < 0 {
      hour := hour + 24;
      day := day - 1;
    }
    if day < 0 {
      var t := NormalizedDay(a.year, a.month, 32);
      day := day + 32 - t;
      month := month - 1;
    }
    if month < 0 {
      month := month + 12;
      year := year - 1;
    }
    DiffBounds(a0, b0);
  }

  lemma BeforeTotal(a: CivilTime, b: CivilTime)
    ensures a == b || Before(a, b) || Before(b, a)
    ensures !(Before(a, b) && Before(b, a))
  {
  }

  /** When `a` is not after `b`, no borrow reaches past the years: the year difference is never negative. */
  lemma {:induction false} BorrowDiffYearNonNegative(a: CivilTime, b: CivilTime)
    requires Valid(a) && Valid(b) && !Before(b, a)
    ensures BorrowDiff(a, b).years >= 0
  {
    var d := BorrowDiff(a, b);
    if a.year == b.year && a.month == b.month {
      if a.day == b.day {
        assert a.hour <= b.hour;
        if a.hour == b.hour {
          assert a.minute <= b.minute;
          if a.minute == b.minute {
            assert a.second <= b.second;
          }
        }
      }
      assert d.months >= 0;
    }
  }

  /** The result ranges of timeDiff. */
  lemma DiffBounds(a: CivilTime, b: CivilTime)
    requires Valid(a) && Valid(b)
    ensures var d := CalendarDiff(a, b);
      && 0 <= d.seconds <= 59 && 0 <= d.minutes <= 59 && 0 <= d.hours <= 23
      && 0 <= d.days <= 30 && 0 <= d.months <= 11 && d.years >= 0
  {
    if After(a, b) {
      BorrowDiffYearNonNegative(b, a);
    } else {
      BorrowDiffYearNonNegative(a, b);
    }
  }

  /** timeDiff(a, b) == timeDiff(b, a) for two times in the same location. */
  lemma DiffSymmetric(a: CivilTime, b: CivilTime)
    requires Valid(a) && Valid(b)
    ensures CalendarDiff(a, b) == CalendarDiff(b, a)
  {
    BeforeTotal(a, b);
  }

  /** The difference is zero exactly when the two times are the same. */
  lemma {:induction false} DiffZeroIffEqual(a: CivilTime, b: CivilTime)
    requires Valid(a) && Valid(b)
    ensures CalendarDiff(a, b) == NoDiff <==> a == b
  {
    if CalendarDiff(a, b) == NoDiff {
      var x, y := if After(a, b) then b else a, if After(a, b) then a else b;
      assert BorrowDiff(x, y) == NoDiff;
      assert y.second == x.second;
      assert y.minute == x.minute;
      assert y.hour == x.hour;
      assert y.day == x.day;
      assert y.month == x.month;
    }
  }
}
