/** Calendar days as integer day numbers.

    Day 0 is 0001-01-01, the instant Go's zero `time.Time` denotes, so the
    "unset" date of the source (`IsZero()`) is the day number 0 and flows
    through every computation exactly as the zero time does in Go. All dates
    are taken to be midnight-aligned, so `Sub(...).Hours() / 24` is plain
    subtraction of day numbers. */
module Dates {

  type Day = int

  /** Go's zero time, 0001-01-01. */
  const Unset: Day := 0

  predicate IsUnset(d: Day) { d == Unset }

  /** Go's `time.Weekday` numbering: Sunday = 0, ..., Saturday = 6.
      0001-01-01 (day 0) is a Monday. */
  function Weekday(d: Day): (w: int)
    ensures 0 <= w < 7
  {
    (d + 1) % 7
  }

  const Sunday := 0
  const Saturday := 6

  predicate IsWeekend(d: Day) { Weekday(d) == Sunday || Weekday(d) == Saturday }

  predicate IsWorkday(d: Day) { !IsWeekend(d) }

  /** The ordered calendar days from `start` to `end`, both included,
      weekends included; empty when the range is inverted. */
  function DateGrid(start: Day, end: Day): (g: seq<Day>)
    ensures start <= end ==> |g| == end - start + 1
    ensures start > end ==> g == []
    ensures forall k :: 0 <= k < |g| ==> g[k] == start + k
    decreases end - start
  {
    if start > end then [] else [start] + DateGrid(start + 1, end)
  }

  /** Zero-based offset of `d` from the grid origin; negative before the
      origin and past the last column after the end. */
  function GridIndex(origin: Day, d: Day): int
  {
    d - origin
  }

  /** The grid and its index are inverse to one another, with no gaps. */
  lemma GridIndexRoundTrip(start: Day, end: Day)
    requires start <= end
    ensures GridIndex(start, start) == 0
    ensures GridIndex(start, end) == |DateGrid(start, end)| - 1
    ensures forall k :: 0 <= k < |DateGrid(start, end)| ==> GridIndex(start, DateGrid(start, end)[k]) == k
    ensures forall d :: start <= d <= end ==> DateGrid(start, end)[GridIndex(start, d)] == d
  {
  }
}
