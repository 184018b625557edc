/**
 * Calendar days as the form sees them. A day is a day number counted from
 * 1970-01-01 (day 0, a Thursday) and stands for local midnight of that day,
 * so stepping a JavaScript `Date` with `setDate(getDate() + k)` moves the day
 * number by `k`, whatever month boundary it crosses.
 */
module Calendar {

  const Sunday := 0
  const Monday := 1
  const Friday := 5
  const Saturday := 6

  /** `Date.prototype.getDay`: 0 for Sunday through 6 for Saturday. */
  function Weekday(n: int): (w: int)
    ensures 0 <= w < 7
    ensures n == 0 ==> w == 4
  {
    (n + 4) % 7
  }

  /** Moving forward `k` days within the same week adds `k` to the weekday. */
  lemma WeekdayForward(n: int, k: int)
    requires 0 <= k && Weekday(n) + k < 7
    ensures Weekday(n + k) == Weekday(n) + k
  {
    var q := (n + 4) / 7;
    assert n + 4 == 7 * q + Weekday(n);
    assert n + k + 4 == 7 * q + (Weekday(n) + k);
  }

  /** Moving forward to the next week wraps the weekday around. */
  lemma WeekdayWrap(n: int, k: int)
    requires 7 <= Weekday(n) + k < 14
    ensures Weekday(n + k) == Weekday(n) + k - 7
  {
    var q := (n + 4) / 7;
    assert n + 4 == 7 * q + Weekday(n);
    assert n + k + 4 == 7 * (q + 1) + (Weekday(n) + k - 7);
  }

  /** A local `Date` whose time of day is midnight, reduced to its day number. */
  class Date {
    var day: int

    constructor (day: int)
      ensures this.day == day
    {
      this.day := day;
    }

    /** `new Date(other)`: a separate object on the same day. */
    constructor Copy(other: Date)
      ensures day == other.day
    {
      day := other.day;
    }

    /** `getDay`. */
    function GetDay(): int
      reads this
    {
      Weekday(day)
    }

    /** `d.setDate(d.getDate() + k)`. */
    method AddDays(k: int)
      modifies this
      ensures day == old(day) + k
    {
      day := day + k;
    }
  }

  /** A month index as `getMonth` returns it. */
  type MonthIndex = m: int | 0 <= m < 12

  /** A day of the month as `getDate` returns it. */
  type DayOfMonth = d: int | 1 <= d <= 31 witness 1

  /** What `getFullYear`, `getMonth` and `getDate` return for a local date. */
  datatype CivilDate = CivilDate(year: int, month: MonthIndex, day: DayOfMonth)
}
