/** Business-day counting (`calculateWorkDays`): the days of an inclusive
    range that are neither Saturday nor Sunday. */
module Workdays {
  import opened Dates

  /** Reference count: workdays among lo, lo+1, ..., hi (none when lo > hi). */
  function WorkdaysIn(lo: Day, hi: Day): nat
    decreases hi - lo
  {
    if lo > hi then 0
    else WorkdaysIn(lo, hi - 1) + (if IsWorkday(hi) then 1 else 0)
  }

  /** What the export writes in every "工期(工作日)" cell. */
  function WorkDays(start: Day, end: Day): nat
  {
    if IsUnset(start) || IsUnset(end) then 0 else WorkdaysIn(start, end)
  }

  /** The source's day-by-day loop. */
  method CalculateWorkDays(startDate: Day, endDate: Day) returns (workDays: nat)
    ensures workDays == WorkDays(startDate, endDate)
    ensures IsUnset(startDate) || IsUnset(endDate) || startDate > endDate ==> workDays == 0
    ensures startDate <= endDate ==> workDays <= endDate - startDate + 1
  {
    if IsUnset(startDate) || IsUnset(endDate) {
      return 0;
    }
    workDays := 0;
    var current := startDate;
    while current <= endDate
      invariant startDate <= current
      invariant current <= endDate + 1 || current == startDate
      invariant workDays == WorkdaysIn(startDate, current - 1)
      decreases endDate - current
    {
      if Weekday(current) != Sunday && Weekday(current) != Saturday {
        workDays := workDays + 1;
      }
      current := current + 1;
    }
    WorkdaysBounded(startDate, endDate);
  }

  /** Never more workdays than calendar days. */
  lemma {:induction false} WorkdaysBounded(lo: Day, hi: Day)
    ensures lo <= hi ==> WorkdaysIn(lo, hi) <= hi - lo + 1
    ensures lo > hi ==> WorkdaysIn(lo, hi) == 0
    decreases hi - lo
  {
    if lo <= hi {
      WorkdaysBounded(lo, hi - 1);
    }
  }

  /** Extending the range at its end never decreases the count. */
  lemma {:induction false} WorkdaysMonotone(lo: Day, hi: Day, hi': Day)
    requires hi <= hi'
    ensures WorkdaysIn(lo, hi) <= WorkdaysIn(lo, hi')
    decreases hi' - hi
  {
    if hi < hi' {
      WorkdaysMonotone(lo, hi, hi' - 1);
    }
  }

  /** Counting is additive over adjacent ranges. */
  lemma {:induction false} WorkdaysSplit(lo: Day, mid: Day, hi: Day)
    requires lo <= mid + 1 && mid <= hi
    ensures WorkdaysIn(lo, hi) == WorkdaysIn(lo, mid) + WorkdaysIn(mid + 1, hi)
    decreases hi - mid
  {
    if mid < hi {
      WorkdaysSplit(lo, mid, hi - 1);
    }
  }

  /** k days after d the weekday has advanced by k, modulo the week. */
  lemma WeekdayShift(d: Day, k: nat)
    requires k < 7
    ensures Weekday(d + k) == (Weekday(d) + k) % 7
  {
    var q := (d + 1) / 7;
    assert d + 1 == 7 * q + Weekday(d);
    assert d + k + 1 == 7 * q + (Weekday(d) + k);
  }

  /** The count over one week, unrolled day by day. */
  lemma WorkdaysUnrollWeek(lo: Day)
    ensures WorkdaysIn(lo, lo + 6) ==
      (if IsWorkday(lo) then 1 else 0) + (if IsWorkday(lo + 1) then 1 else 0) +
      (if IsWorkday(lo + 2) then 1 else 0) + (if IsWorkday(lo + 3) then 1 else 0) +
      (if IsWorkday(lo + 4) then 1 else 0) + (if IsWorkday(lo + 5) then 1 else 0) +
      (if IsWorkday(lo + 6) then 1 else 0)
  {
    assert WorkdaysIn(lo, lo - 1) == 0;
    assert WorkdaysIn(lo, lo) == (if IsWorkday(lo) then 1 else 0);
    assert WorkdaysIn(lo, lo + 1) == WorkdaysIn(lo, lo) + (if IsWorkday(lo + 1) then 1 else 0);
    assert WorkdaysIn(lo, lo + 2) == WorkdaysIn(lo, lo + 1) + (if IsWorkday(lo + 2) then 1 else 0);
    assert WorkdaysIn(lo, lo + 3) == WorkdaysIn(lo, lo + 2) + (if IsWorkday(lo + 3) then 1 else 0);
    assert WorkdaysIn(lo, lo + 4) == WorkdaysIn(lo, lo + 3) + (if IsWorkday(lo + 4) then 1 else 0);
    assert WorkdaysIn(lo, lo + 5) == WorkdaysIn(lo, lo + 4) + (if IsWorkday(lo + 5) then 1 else 0);
  }

  /** Any seven consecutive days hold exactly five workdays. */
  lemma WorkdaysInWeek(lo: Day)
    ensures WorkdaysIn(lo, lo + 6) == 5
  {
    WorkdaysUnrollWeek(lo);
    WeekdayShift(lo, 1);
    WeekdayShift(lo, 2);
    WeekdayShift(lo, 3);
    WeekdayShift(lo, 4);
    WeekdayShift(lo, 5);
    WeekdayShift(lo, 6);
  }

  /** Closed form over whole weeks: k weeks hold 5k workdays. */
  lemma {:induction false} WorkdaysInWeeks(lo: Day, k: nat)
    ensures WorkdaysIn(lo, lo + 7 * k - 1) == 5 * k
  {
    if k > 0 {
      WorkdaysInWeeks(lo, k - 1);
      WorkdaysSplit(lo, lo + 7 * (k - 1) - 1, lo + 7 * k - 1);
      WorkdaysInWeek(lo + 7 * (k - 1));
    }
  }

  /** Either date unset, or an inverted range, yields 0; a single set day
      counts 1 exactly when it is Monday to Friday. */
  lemma WorkDaysEdgeCases(start: Day, end: Day)
    ensures IsUnset(start) || IsUnset(end) ==> WorkDays(start, end) == 0
    ensures start > end ==> WorkDays(start, end) == 0
    ensures !IsUnset(start) ==> (WorkDays(start, start) == 1 <==> IsWorkday(start))
    ensures !IsUnset(start) ==> (WorkDays(start, start) == 0 <==> IsWeekend(start))
  {
    assert WorkdaysIn(start, start - 1) == 0;
  }

  /** With the start fixed, the exported duration is non-decreasing in the
      end date and never exceeds the number of calendar days. */
  lemma WorkDaysMonotoneBounded(start: Day, end: Day, end': Day)
    requires end <= end'
    requires !IsUnset(end) && !IsUnset(end')
    ensures WorkDays(start, end) <= WorkDays(start, end')
    ensures start <= end ==> WorkDays(start, end) <= end - start + 1
  {
    WorkdaysMonotone(start, end, end');
    WorkdaysBounded(start, end);
  }

  /** 2024-01-01 (day 738885, a Monday) to 2024-01-10: ten calendar days,
      eight of them workdays; the first five are all workdays. */
  lemma January2024()
    ensures Weekday(738885) == 1
    ensures WorkDays(738885, 738894) == 8
    ensures WorkDays(738885, 738889) == 5
    ensures WorkDays(738886, 738887) == 2
  {
    WorkdaysInWeek(738885);
    WorkdaysSplit(738885, 738891, 738894);
    assert WorkdaysIn(738892, 738891) == 0;
    WorkdaysSplit(738885, 738889, 738891);
    assert WorkdaysIn(738886, 738885) == 0;
  }
}
