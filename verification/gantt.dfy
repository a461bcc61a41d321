/** The visual timeline's geometry: the date header row and the column
    arithmetic of `drawGanttBar`. The header writes one column per calendar
    day of the project; a bar for a row spans the columns of its start and
    end days, clamped from below only. */
module Gantt {
  import opened Results
  import opened Dates
  import opened Cells
  import Labels

  /** Bars put day offset d at column d + 2, leaving column A for the row label. */
  const BarOffset := 2

  /** The header's first date column as the source writes it (`col := 1`). */
  const HeaderFirstColumn := 1

  datatype Bar = Bar(fromCol: int, toCol: int, color: string)

  /** `drawGanttBar` without the styling call: the bar's column range, or
      nothing when either date is unset. */
  function GanttBar(startDate: Day, endDate: Day, projectStart: Day, color: string): (bar: Option<Bar>)
    ensures bar.None? <==> IsUnset(startDate) || IsUnset(endDate)
    ensures bar.Some? ==> BarOffset <= bar.value.fromCol <= bar.value.toCol && bar.value.color == color
    ensures bar.Some? && projectStart <= startDate <= endDate ==>
      bar.value.fromCol == GridIndex(projectStart, startDate) + BarOffset &&
      bar.value.toCol == GridIndex(projectStart, endDate) + BarOffset
    ensures bar.Some? && projectStart <= startDate ==> bar.value.fromCol == GridIndex(projectStart, startDate) + BarOffset
    ensures bar.Some? && startDate < projectStart ==> bar.value.fromCol == BarOffset
    ensures bar.Some? && startDate > endDate ==> bar.value.fromCol == bar.value.toCol
    ensures bar.Some? && startDate < projectStart && endDate < projectStart ==> bar.value.fromCol == bar.value.toCol == BarOffset
  {
    if IsUnset(startDate) || IsUnset(endDate) then None
    else
      var startCol := GridIndex(projectStart, startDate) + BarOffset;
      var endCol := GridIndex(projectStart, endDate) + BarOffset;
      var startCol' := if startCol < BarOffset then BarOffset else startCol;
      var endCol' := if endCol < startCol' then startCol' else endCol;
      Some(Bar(startCol', endCol', color))
  }

  /** The fill a bar applies on timeline row `row`. */
  function BarFill(bar: Option<Bar>, row: int): (fs: seq<Fill>)
    ensures |fs| <= 1
    ensures bar.Some? <==> |fs| == 1
    ensures bar.Some? ==> fs[0] == Fill(bar.value.fromCol, bar.value.toCol, row, bar.value.color)
  {
    match bar
    case None => []
    case Some(b) => [Fill(b.fromCol, b.toCol, row, b.color)]
  }

  /** For a set, non-inverted range that ends on or after the project start,
      the bar covers the column of day d (counted with `BarOffset`) exactly
      for the days from max(start, projectStart) through end. */
  lemma BarCoversDays(startDate: Day, endDate: Day, projectStart: Day, color: string, d: Day)
    requires !IsUnset(startDate) && !IsUnset(endDate)
    requires startDate <= endDate && projectStart <= endDate
    requires projectStart <= d
    ensures var b := GanttBar(startDate, endDate, projectStart, color).value;
      b.fromCol <= GridIndex(projectStart, d) + BarOffset <= b.toCol
      <==> (startDate <= d || startDate < projectStart) && d <= endDate
  {
  }

  /** There is no upper clamp: a row ending after the project end gets a bar
      reaching past the last day column of the grid. */
  lemma NoUpperClamp(startDate: Day, endDate: Day, projectStart: Day, projectEnd: Day, color: string)
    requires !IsUnset(startDate) && !IsUnset(endDate)
    requires projectStart <= startDate <= endDate
    requires projectStart <= projectEnd < endDate
    ensures GanttBar(startDate, endDate, projectStart, color).value.toCol
      > GridIndex(projectStart, projectEnd) + BarOffset
  {
  }

  /** Header cells, one per calendar day from `start` to `end` (weekends
      included), the first in column `col0`, as the source's date loop. */
  function DateHeaderCells(start: Day, end: Day, col0: int): (cells: Cells)
    ensures |cells| == |DateGrid(start, end)|
    ensures forall k :: 0 <= k < |cells| ==> cells[k] == (col0 + k, ShortDate(start + k))
    decreases end - start
  {
    if start > end then []
    else [(col0, ShortDate(start))] + DateHeaderCells(start + 1, end, col0 + 1)
  }

  /** The weekend marking of the header row: a fill on the header cell of
      every Saturday and Sunday of the grid and of no other day. */
  function WeekendFills(start: Day, end: Day, col0: int): (fs: seq<Fill>)
    ensures forall k :: 0 <= k < |fs| ==>
      fs[k].row == 1 && fs[k].fromCol == fs[k].toCol && fs[k].color == Labels.WeekendColor
      && col0 <= fs[k].fromCol <= col0 + end - start
    ensures forall d :: start <= d <= end ==>
      (Fill(col0 + d - start, col0 + d - start, 1, Labels.WeekendColor) in fs <==> IsWeekend(d))
    decreases end - start
  {
    if start > end then []
    else
      (if IsWeekend(start) then [Fill(col0, col0, 1, Labels.WeekendColor)] else [])
      + WeekendFills(start + 1, end, col0 + 1)
  }

  /** The header/bar misalignment of the source: the header puts day offset
      g in column g + 1 while bars put it in column g + 2. So a bar starts one
      column right of its start day's header, under the next day's date, and
      a bar ending on the project's last day ends in a column with no date. */
  lemma HeaderBarOffset(projectStart: Day, projectEnd: Day, startDate: Day, endDate: Day, color: string)
    requires !IsUnset(startDate) && !IsUnset(endDate)
    requires projectStart <= startDate <= endDate <= projectEnd
    ensures var cells := DateHeaderCells(projectStart, projectEnd, HeaderFirstColumn);
      var b := GanttBar(startDate, endDate, projectStart, color).value;
      && cells[GridIndex(projectStart, startDate)].0 == b.fromCol - 1
      && (startDate < projectEnd ==> cells[b.fromCol - HeaderFirstColumn] == (b.fromCol, ShortDate(startDate + 1)))
      && (endDate == projectEnd ==> b.toCol == |cells| + HeaderFirstColumn)
  {
  }

  /** With the header starting at column 2 instead, every bar column sits
      under its own day's date. */
  lemma AlignedHeaderMatchesBars(projectStart: Day, projectEnd: Day, startDate: Day, endDate: Day, color: string, d: Day)
    requires !IsUnset(startDate) && !IsUnset(endDate)
    requires projectStart <= startDate <= d <= endDate <= projectEnd
    ensures var cells := DateHeaderCells(projectStart, projectEnd, BarOffset);
      var b := GanttBar(startDate, endDate, projectStart, color).value;
      && b.toCol - BarOffset < |cells|
      && cells[b.fromCol - BarOffset] == (b.fromCol, ShortDate(startDate))
      && cells[b.toCol - BarOffset] == (b.toCol, ShortDate(endDate))
      && cells[GridIndex(projectStart, d)].0 == GridIndex(projectStart, d) + BarOffset
  {
  }
}
