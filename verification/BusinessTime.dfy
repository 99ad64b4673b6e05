/**
 * Business time in UTC: the loop over calendar days against the plain count of working milliseconds. The minutes of
 * each day are added up as fractions, as the service does, but exactly.
 */
module BusinessTime {
  import opened Wrappers

  type Time = int

  const MINUTE := 60000
  const HOUR := 60 * MINUTE
  const DAY := 24 * HOUR
  const WEEK := 7 * DAY

  datatype Hours = Hours(startHour: int, endHour: int)

  /** What the settings schema admits. */
  predicate ValidHours(h: Hours) {
    0 <= h.startHour < h.endHour <= 24
  }

  /** 0 is Sunday; the epoch was a Thursday. */
  function Weekday(day: int): int {
    (day + 4) % 7
  }

  predicate IsWeekday(day: int) {
    Weekday(day) != 0 && Weekday(day) != 6
  }

  /** The millisecond that starts at `t` is worked. */
  predicate Working(t: Time, h: Hours) {
    IsWeekday(t / DAY) && h.startHour * HOUR <= t % DAY < h.endHour * HOUR
  }

  /** The measure of the working instants in [start, end). */
  ghost function Worked(start: Time, end: Time, h: Hours): nat
    decreases end - start
  {
    if end <= start then 0 else Worked(start, end - 1, h) + (if Working(end - 1, h) then 1 else 0)
  }

  // ---- The count ----

  lemma {:induction false} Additive(a: Time, b: Time, c: Time, h: Hours)
    requires a <= b <= c
    ensures Worked(a, c, h) == Worked(a, b, h) + Worked(b, c, h)
    decreases c - b
  {
    if b < c {
      Additive(a, b, c - 1, h);
    }
  }

  lemma {:induction false} NoneWorked(a: Time, b: Time, h: Hours)
    requires forall t :: a <= t < b ==> !Working(t, h)
    ensures Worked(a, b, h) == 0
    decreases b - a
  {
    if a < b {
      NoneWorked(a, b - 1, h);
    }
  }

  lemma {:induction false} AllWorked(a: Time, b: Time, h: Hours)
    requires a <= b && forall t :: a <= t < b ==> Working(t, h)
    ensures Worked(a, b, h) == b - a
    decreases b - a
  {
    if a < b {
      AllWorked(a, b - 1, h);
    }
  }

  lemma {:induction false} Bounded(a: Time, b: Time, h: Hours)
    ensures Worked(a, b, h) <= if a <= b then b - a else 0
    decreases b - a
  {
    if a < b {
      Bounded(a, b - 1, h);
    }
  }

  function Clamp(t: Time, lo: Time, hi: Time): Time {
    if t < lo then lo else if t > hi then hi else t
  }

  lemma InDay(day: int, t: Time)
    requires day * DAY <= t < day * DAY + DAY
    ensures t / DAY == day && t % DAY == t - day * DAY
  {
  }

  /** Within one day the working instants are those of the window. */
  lemma DayWorked(day: int, a: Time, b: Time, h: Hours)
    requires ValidHours(h) && day * DAY <= a <= b <= day * DAY + DAY
    ensures Worked(a, b, h) ==
              if IsWeekday(day) then Clamp(day * DAY + h.endHour * HOUR, a, b) - Clamp(day * DAY + h.startHour * HOUR, a, b)
              else 0
  {
    forall t | a <= t < b
      ensures Working(t, h) <==> IsWeekday(day) && day * DAY + h.startHour * HOUR <= t < day * DAY + h.endHour * HOUR
    {
      InDay(day, t);
    }
    if IsWeekday(day) {
      var lo, hi := Clamp(day * DAY + h.startHour * HOUR, a, b), Clamp(day * DAY + h.endHour * HOUR, a, b);
      NoneWorked(a, lo, h);
      AllWorked(lo, hi, h);
      NoneWorked(hi, b, h);
      Additive(a, lo, hi, h);
      Additive(a, hi, b, h);
    } else {
      NoneWorked(a, b, h);
    }
  }

  // ---- The loop ----

  function Max(a: int, b: int): int { if a < b then b else a }
  function Min(a: int, b: int): int { if a < b then a else b }

  /** One turn of the loop adds what the day contributes. */
  lemma DayAdds(day: int, start: Time, end: Time, h: Hours)
    requires ValidHours(h) && start < end && start < day * DAY + DAY
    ensures var from, to := Max(start, day * DAY + h.startHour * HOUR), Min(end, day * DAY + h.endHour * HOUR);
            Worked(start, Min(end, day * DAY + DAY), h) ==
              Worked(start, Min(end, day * DAY), h) + (if IsWeekday(day) && to > from then to - from else 0)
  {
    var a, b := Max(start, day * DAY), Min(end, day * DAY + DAY);
    if a <= b {
      DayWorked(day, a, b, h);
      if start <= Min(end, day * DAY) {
        Additive(start, a, b, h);
      }
    }
  }

  /** The minutes of a number of milliseconds. */
  function Minutes(ms: int): real {
    ms as real / 60000.0
  }

  function WeekdayAt(dayStart: Time): int {
    Weekday(dayStart / DAY)
  }

  lemma WeekdayOf(day: int)
    ensures WeekdayAt(day * DAY) == Weekday(day)
  {
    InDay(day, day * DAY);
  }

  method BusinessMinutesBetween(start: Time, end: Time, h: Hours) returns (total: real)
    requires ValidHours(h)
    ensures total == Minutes(Worked(start, end, h))
  {
    if end <= start {
      return 0.0;
    }
    total := 0.0;
    var dayStart := start / DAY * DAY;
    ghost var day := start / DAY;
    while dayStart <= end
      invariant dayStart == day * DAY && start < dayStart + DAY
      invariant total == Minutes(Worked(start, Min(end, dayStart), h))
      decreases end - dayStart
    {
      var weekday := WeekdayAt(dayStart);
      WeekdayOf(day);
      DayAdds(day, start, end, h);
      if weekday != 0 && weekday != 6 {
        var windowStart, windowEnd := dayStart + h.startHour * HOUR, dayStart + h.endHour * HOUR;
        var from, to := Max(start, windowStart), Min(end, windowEnd);
        if to > from {
          total := total + (to - from) as real / 60000.0;
        }
      }
      dayStart := dayStart + DAY;
      day := day + 1;
    }
  }

  // ---- What the count gives ----

  lemma SameNextWeek(t: Time, h: Hours)
    ensures Working(t + WEEK, h) == Working(t, h)
  {
    assert (t + WEEK) / DAY == t / DAY + 7 && (t + WEEK) % DAY == t % DAY;
  }

  lemma WeekSlides(a: Time, h: Hours)
    ensures Worked(a, a + WEEK, h) == Worked(a + 1, a + 1 + WEEK, h)
  {
    Additive(a, a + 1, a + WEEK, h);
    SameNextWeek(a, h);
    assert Worked(a, a + 1, h) == Worked(a, a, h) + (if Working(a, h) then 1 else 0);
  }

  lemma {:induction false} WeeksAreAlike(a: Time, n: nat, h: Hours)
    ensures Worked(a, a + WEEK, h) == Worked(a + n, a + n + WEEK, h)
  {
    if n > 0 {
      WeeksAreAlike(a, n - 1, h);
      WeekSlides(a + n - 1, h);
    }
  }

  lemma WholeDay(day: int, h: Hours)
    requires ValidHours(h)
    ensures Worked(day * DAY, day * DAY + DAY, h) == if IsWeekday(day) then h.endHour * HOUR - h.startHour * HOUR else 0
  {
    DayWorked(day, day * DAY, day * DAY + DAY, h);
    assert h.startHour * HOUR <= h.endHour * HOUR <= DAY;
  }

  /** The first `n` days since the epoch, at `w` per weekday. */
  function DaysWorth(n: nat, w: int): int {
    if n == 0 then 0 else DaysWorth(n - 1, w) + (if IsWeekday(n - 1) then w else 0)
  }

  lemma {:induction false} FirstDays(n: nat, h: Hours)
    requires ValidHours(h)
    ensures Worked(0, n * DAY, h) == DaysWorth(n, h.endHour * HOUR - h.startHour * HOUR)
  {
    if n > 0 {
      FirstDays(n - 1, h);
      WholeDay(n - 1, h);
      Additive(0, (n - 1) * DAY, n * DAY, h);
    }
  }

  lemma FiveADay(w: int)
    ensures DaysWorth(7, w) == 5 * w
  {
    assert DaysWorth(1, w) == w && DaysWorth(2, w) == 2 * w;
    assert DaysWorth(3, w) == 2 * w && DaysWorth(4, w) == 2 * w;
    assert DaysWorth(5, w) == 3 * w && DaysWorth(6, w) == 4 * w;
  }

  lemma FirstWeek(h: Hours)
    requires ValidHours(h)
    ensures Worked(0, WEEK, h) == 5 * (h.endHour - h.startHour) * HOUR
  {
    FirstDays(7, h);
    FiveADay(h.endHour * HOUR - h.startHour * HOUR);
  }

  /** Any seven days, whenever they start, hold five working days. */
  lemma WholeWeek(a: Time, h: Hours)
    requires ValidHours(h)
    ensures Worked(a, a + WEEK, h) == 5 * (h.endHour - h.startHour) * HOUR
  {
    FirstWeek(h);
    if a >= 0 {
      WeeksAreAlike(0, a, h);
    } else {
      WeeksAreAlike(a, -a, h);
    }
  }

  /** The estimate is in minutes; without a start or an estimate nothing is overdue. */
  ghost predicate IsWorkOverdue(startedAt: Option<Time>, estimate: Option<nat>, now: Time, h: Hours) {
    startedAt.Some? && estimate.Some? && Minutes(Worked(startedAt.value, now, h)) >= estimate.value as real
  }

  lemma OnceOverdueAlwaysOverdue(startedAt: Option<Time>, estimate: Option<nat>, now: Time, later: Time, h: Hours)
    requires IsWorkOverdue(startedAt, estimate, now, h) && now <= later
    ensures IsWorkOverdue(startedAt, estimate, later, h)
  {
    if startedAt.value <= now {
      Additive(startedAt.value, now, later, h);
    }
  }
}
