/** What the visual timeline sheet holds: the date header row, the row
    labels in document order, the bars and the weekend marks, and the
    column misalignment between header and bars. */
module TimelineLayout {
  import opened Results
  import opened Dates
  import opened Models
  import opened Labels
  import opened Cells
  import opened Timeline
  import opened Gantt
  import opened Sheets
  import Layout

  lemma HeaderCellsLookup(start: Day, end: Day, col0: int, c: int)
    ensures RowLookup(DateHeaderCells(start, end, col0), c) ==
      if col0 <= c < col0 + |DateGrid(start, end)| then Some(ShortDate(start + c - col0)) else None
  {
    var cells := DateHeaderCells(start, end, col0);
    if col0 <= c < col0 + |cells| {
      RowLookupUnique(cells, c, c - col0);
    } else {
      RowLookupAbsent(cells, c);
    }
  }

  lemma LabelLookup(c: int)
    ensures Lookup(TimelineLabelWrites, c, 1) == if c == 1 then Some(Text("任务/阶段")) else None
  {
    if c == 1 {
      LookupUnique(TimelineLabelWrites, 1, 1, 0);
    } else {
      LookupUnwritten(TimelineLabelWrites, c, 1);
    }
  }

  /** Row 1 of the timeline sheet: one date per grid day from column `col0`,
      and the "任务/阶段" label in A1 only where no date lands on it. */
  lemma HeaderRow(p: Project, col0: int, c: int)
    ensures Lookup(TimelineSheetFrom(p, col0).writes, c, 1) ==
      if col0 <= c < col0 + |DateGrid(p.startDate, p.endDate)| then Some(ShortDate(p.startDate + c - col0))
      else if c == 1 then Some(Text("任务/阶段"))
      else None
  {
    HeaderRowIn(TimelineSheetFrom(p, col0).writes, EmitRows(TimelineRows(p), TimelineFirstRow), p, col0, c);
  }

  /** Row 1 of any writes made of the timeline head followed by writes to
      the body rows only: the head alone decides it. */
  lemma HeaderRowIn(ws: seq<Write>, body: seq<Write>, p: Project, col0: int, c: int)
    requires ws == TimelineHead(p, col0) + body
    requires forall k :: 0 <= k < |body| ==> body[k].row >= TimelineFirstRow
    ensures Lookup(ws, c, 1) ==
      if col0 <= c < col0 + |DateGrid(p.startDate, p.endDate)| then Some(ShortDate(p.startDate + c - col0))
      else if c == 1 then Some(Text("任务/阶段"))
      else None
  {
    LookupBeforeSuffix(TimelineHead(p, col0), body, c, 1, TimelineFirstRow);
    HeadRow(p, col0, c);
  }

  /** Row 1 of the head writes: the date header wins over the label. */
  lemma HeadRow(p: Project, col0: int, c: int)
    ensures Lookup(TimelineHead(p, col0), c, 1) ==
      if col0 <= c < col0 + |DateGrid(p.startDate, p.endDate)| then Some(ShortDate(p.startDate + c - col0))
      else if c == 1 then Some(Text("任务/阶段"))
      else None
  {
    DateRowLookup(p.startDate, p.endDate, col0, c);
    LabelLookup(c);
    LookupOverlay(TimelineHead(p, col0), TimelineLabelWrites, EmitRow(DateHeaderCells(p.startDate, p.endDate, col0), 1), c, 1,
                  col0 <= c < col0 + |DateGrid(p.startDate, p.endDate)|, ShortDate(p.startDate + c - col0),
                  c == 1, Text("任务/阶段"));
  }

  /** The date header row read back: one date per grid day from `col0`. */
  lemma DateRowLookup(start: Day, end: Day, col0: int, c: int)
    ensures Lookup(EmitRow(DateHeaderCells(start, end, col0), 1), c, 1) ==
      if col0 <= c < col0 + |DateGrid(start, end)| then Some(ShortDate(start + c - col0)) else None
  {
    EmitRowLookup(DateHeaderCells(start, end, col0), 1, c, 1);
    HeaderCellsLookup(start, end, col0, c);
  }

  /** The head writes all lie in rows 1..4, above the body. */
  lemma TimelineHeadRows(p: Project, col0: int)
    ensures forall k :: 0 <= k < |TimelineHead(p, col0)| ==> 1 <= TimelineHead(p, col0)[k].row < TimelineFirstRow
  {
  }

  lemma TimelineBody(p: Project, col0: int, col: int, r: int)
    requires r >= TimelineFirstRow
    ensures Lookup(TimelineSheetFrom(p, col0).writes, col, r) ==
      if r < TimelineFirstRow + |TimelineRows(p)| then RowLookup(TimelineRows(p)[r - TimelineFirstRow], col) else None
  {
    var prefix := TimelineHead(p, col0);
    TimelineHeadRows(p, col0);
    SheetBodyLookup(TimelineSheetFrom(p, col0).writes, prefix, TimelineRows(p), TimelineFirstRow, col, r);
  }

  /** Fills on body rows are exactly the bars of those rows. */
  lemma BodyFills(p: Project, col0: int, k: nat, f: Fill)
    requires k < |Bars(p)| && f.row == TimelineFirstRow + k
    ensures f in TimelineSheetFrom(p, col0).fills <==> Bars(p)[k] == Some(Bar(f.fromCol, f.toCol, f.color))
  {
    var w := WeekendFills(p.startDate, p.endDate, col0);
    assert f !in w;
  }

  /** The label column of stage i's row and of task j's row, read from
      writes laid out as the timeline sheet's. */
  lemma LabelsAt(ws: seq<Write>, p: Project, col0: int, i: nat)
    requires ws == TimelineHead(p, col0) + EmitRows(Walk(p.stages, TimelineStageCells, TimelineTaskCells), TimelineFirstRow)
    requires i < |p.stages|
    ensures Lookup(ws, 1, TimelineFirstRow + StagePos(p.stages, i)) == Some(Text(StageMarker + p.stages[i].name))
    ensures forall j :: 0 <= j < |p.stages[i].tasks| ==>
      Lookup(ws, 1, TimelineFirstRow + StagePos(p.stages, i) + 1 + j) == Some(Text(TaskMarker + p.stages[i].tasks[j].name))
  {
    var s := p.stages[i];
    TimelineHeadRows(p, col0);
    Layout.SheetStageCell(ws, TimelineHead(p, col0), p.stages, TimelineStageCells, TimelineTaskCells, TimelineFirstRow, i, 1);
    assert Lookup(ws, 1, TimelineFirstRow + StagePos(p.stages, i)) == RowLookup(TimelineStageCells(s), 1);
    RowFromLookup(1, [Text(StageMarker + s.name)], 1);
    forall j | 0 <= j < |s.tasks|
      ensures Lookup(ws, 1, TimelineFirstRow + StagePos(p.stages, i) + 1 + j) == Some(Text(TaskMarker + s.tasks[j].name))
    {
      Layout.SheetTaskCell(ws, TimelineHead(p, col0), p.stages, TimelineStageCells, TimelineTaskCells, TimelineFirstRow, i, j, 1);
      RowFromLookup(1, [Text(TaskMarker + s.tasks[j].name)], 1);
    }
  }

  /** Stage i's row, at row 5 + its position: the folder-marked name in
      column A and exactly the bar `drawGanttBar` computes for its dates,
      coloured by its status. */
  lemma TimelineStageRow(p: Project, col0: int, i: nat, f: Fill)
    requires i < |p.stages|
    requires f.row == TimelineFirstRow + StagePos(p.stages, i)
    ensures var s := p.stages[i];
      && Lookup(TimelineSheetFrom(p, col0).writes, 1, f.row) == Some(Text(StageMarker + s.name))
      && (f in TimelineSheetFrom(p, col0).fills <==>
          GanttBar(s.startDate, s.endDate, p.startDate, StatusColor(s.status)) == Some(Bar(f.fromCol, f.toCol, f.color)))
  {
    var s, k := p.stages[i], StagePos(p.stages, i);
    LabelsAt(TimelineSheetFrom(p, col0).writes, p, col0, i);
    StageBarAt(p, i);
    BodyFills(p, col0, k, f);
    assert Bars(p)[k] == GanttBar(s.startDate, s.endDate, p.startDate, StatusColor(s.status));
  }

  /** Stage i's bar is the bar list's entry at the stage's position. */
  lemma StageBarAt(p: Project, i: nat)
    requires i < |p.stages|
    ensures var s := p.stages[i];
      StagePos(p.stages, i) < |Bars(p)| &&
      Bars(p)[StagePos(p.stages, i)] == GanttBar(s.startDate, s.endDate, p.startDate, StatusColor(s.status))
  {
    WalkStageAt(p.stages, StageBarOf(p.startDate), TaskBarOf(p.startDate), i);
  }

  /** Task j of stage i's bar is the bar list's entry at the task's position. */
  lemma TaskBarAt(p: Project, i: nat, j: nat)
    requires i < |p.stages| && j < |p.stages[i].tasks|
    ensures var t := p.stages[i].tasks[j];
      StagePos(p.stages, i) + 1 + j < |Bars(p)| &&
      Bars(p)[StagePos(p.stages, i) + 1 + j] == GanttBar(t.startDate, t.endDate, p.startDate, StatusColor(t.status))
  {
    WalkTaskAt(p.stages, StageBarOf(p.startDate), TaskBarOf(p.startDate), i, j);
  }

  /** Task j of stage i, right after its stage and earlier siblings: the
      indented, page-marked name in column A. */
  lemma TimelineTaskLabel(p: Project, col0: int, i: nat, j: nat)
    requires i < |p.stages| && j < |p.stages[i].tasks|
    ensures Lookup(TimelineSheetFrom(p, col0).writes, 1, TimelineFirstRow + StagePos(p.stages, i) + 1 + j)
      == Some(Text(TaskMarker + p.stages[i].tasks[j].name))
  {
    LabelsAt(TimelineSheetFrom(p, col0).writes, p, col0, i);
  }

  /** The fills on task j's row are exactly the bar `drawGanttBar` computes
      for the task's dates, coloured by its status. */
  lemma TimelineTaskBar(p: Project, col0: int, i: nat, j: nat, f: Fill)
    requires i < |p.stages| && j < |p.stages[i].tasks|
    requires f.row == TimelineFirstRow + StagePos(p.stages, i) + 1 + j
    ensures var t := p.stages[i].tasks[j];
      f in TimelineSheetFrom(p, col0).fills <==>
        GanttBar(t.startDate, t.endDate, p.startDate, StatusColor(t.status)) == Some(Bar(f.fromCol, f.toCol, f.color))
  {
    var t, k := p.stages[i].tasks[j], StagePos(p.stages, i) + 1 + j;
    TaskBarAt(p, i, j);
    BodyFills(p, col0, k, f);
    assert Bars(p)[k] == GanttBar(t.startDate, t.endDate, p.startDate, StatusColor(t.status));
  }

  /** The header cell of grid day d carries the weekend fill exactly when d
      is a Saturday or Sunday, whatever the rows' statuses. */
  lemma WeekendMarks(p: Project, col0: int, d: Day)
    requires p.startDate <= d <= p.endDate
    ensures var c := col0 + GridIndex(p.startDate, d);
      Fill(c, c, 1, WeekendColor) in TimelineSheetFrom(p, col0).fills <==> IsWeekend(d)
  {
    var c := col0 + GridIndex(p.startDate, d);
    var w, b := WeekendFills(p.startDate, p.endDate, col0), BarFills(Bars(p), TimelineFirstRow);
    assert Fill(c, c, 1, WeekendColor) in w <==> IsWeekend(d) by {
      assert c == col0 + d - p.startDate;
    }
    assert Fill(c, c, 1, WeekendColor) !in b;
    assert TimelineSheetFrom(p, col0).fills == w + b;
  }

  /** The source's header as written: it starts in column A, so its first
      date overwrites the "任务/阶段" label, and a bar starting on day d
      (before the last day) sits under the header of day d + 1, while a bar
      ending on the last day ends in a column with no header at all. */
  lemma TimelineHeaderMisaligned(p: Project, startDate: Day, endDate: Day, color: string)
    requires !IsUnset(startDate) && !IsUnset(endDate)
    requires p.startDate <= startDate < p.endDate && startDate <= endDate
    ensures var ws, b := TimelineSheet(p).writes, GanttBar(startDate, endDate, p.startDate, color).value;
      && Lookup(ws, 1, 1) == Some(ShortDate(p.startDate))
      && Lookup(ws, b.fromCol, 1) == Some(ShortDate(startDate + 1))
      && Lookup(ws, GridIndex(p.startDate, p.endDate) + BarOffset, 1) == None
  {
    MisalignedHeaderIn(TimelineSheet(p).writes, EmitRows(TimelineRows(p), TimelineFirstRow), p, startDate, endDate, color);
  }

  /** The source's header over the timeline head, dates from column A,
      followed by writes to the body rows only. */
  lemma MisalignedHeaderIn(ws: seq<Write>, body: seq<Write>, p: Project, startDate: Day, endDate: Day, color: string)
    requires ws == TimelineHead(p, HeaderFirstColumn) + body
    requires forall k :: 0 <= k < |body| ==> body[k].row >= TimelineFirstRow
    requires !IsUnset(startDate) && !IsUnset(endDate)
    requires p.startDate <= startDate < p.endDate && startDate <= endDate
    ensures var b := GanttBar(startDate, endDate, p.startDate, color).value;
      && Lookup(ws, 1, 1) == Some(ShortDate(p.startDate))
      && Lookup(ws, b.fromCol, 1) == Some(ShortDate(startDate + 1))
      && Lookup(ws, GridIndex(p.startDate, p.endDate) + BarOffset, 1) == None
  {
    var b := GanttBar(startDate, endDate, p.startDate, color).value;
    assert b.fromCol == GridIndex(p.startDate, startDate) + BarOffset;
    HeaderRowIn(ws, body, p, HeaderFirstColumn, 1);
    HeaderRowIn(ws, body, p, HeaderFirstColumn, b.fromCol);
    HeaderRowIn(ws, body, p, HeaderFirstColumn, GridIndex(p.startDate, p.endDate) + BarOffset);
  }

  /** In the corrected header each grid day's date sits in its bar column. */
  lemma AlignedDayHeader(p: Project, d: Day)
    requires p.startDate <= d <= p.endDate
    ensures Lookup(AlignedTimelineSheet(p).writes, GridIndex(p.startDate, d) + BarOffset, 1) == Some(ShortDate(d))
  {
    var c := GridIndex(p.startDate, d) + BarOffset;
    assert |DateGrid(p.startDate, p.endDate)| == p.endDate - p.startDate + 1;
    assert p.startDate + c - BarOffset == d;
    HeaderRow(p, BarOffset, c);
  }

  /** The corrected header, starting in column B: A1 keeps its label, every
      grid day's date sits in the column bars use for that day, and a bar
      within the project starts under its start date and ends under its
      end date. */
  lemma AlignedTimelineHeader(p: Project, startDate: Day, endDate: Day, color: string, d: Day)
    requires !IsUnset(startDate) && !IsUnset(endDate)
    requires p.startDate <= startDate <= endDate <= p.endDate
    requires p.startDate <= d <= p.endDate
    ensures var ws, b := AlignedTimelineSheet(p).writes, GanttBar(startDate, endDate, p.startDate, color).value;
      && Lookup(ws, 1, 1) == Some(Text("任务/阶段"))
      && Lookup(ws, GridIndex(p.startDate, d) + BarOffset, 1) == Some(ShortDate(d))
      && Lookup(ws, b.fromCol, 1) == Some(ShortDate(startDate))
      && Lookup(ws, b.toCol, 1) == Some(ShortDate(endDate))
  {
    AlignedHeaderIn(AlignedTimelineSheet(p).writes, EmitRows(TimelineRows(p), TimelineFirstRow), p, startDate, endDate, color, d);
  }

  /** The corrected header over the timeline head, dates from column B,
      followed by writes to the body rows only. */
  lemma AlignedHeaderIn(ws: seq<Write>, body: seq<Write>, p: Project, startDate: Day, endDate: Day, color: string, d: Day)
    requires ws == TimelineHead(p, BarOffset) + body
    requires forall k :: 0 <= k < |body| ==> body[k].row >= TimelineFirstRow
    requires !IsUnset(startDate) && !IsUnset(endDate)
    requires p.startDate <= startDate <= endDate <= p.endDate
    requires p.startDate <= d <= p.endDate
    ensures var b := GanttBar(startDate, endDate, p.startDate, color).value;
      && Lookup(ws, 1, 1) == Some(Text("任务/阶段"))
      && Lookup(ws, GridIndex(p.startDate, d) + BarOffset, 1) == Some(ShortDate(d))
      && Lookup(ws, b.fromCol, 1) == Some(ShortDate(startDate))
      && Lookup(ws, b.toCol, 1) == Some(ShortDate(endDate))
  {
    var b := GanttBar(startDate, endDate, p.startDate, color).value;
    assert b.fromCol == GridIndex(p.startDate, startDate) + BarOffset;
    assert b.toCol == GridIndex(p.startDate, endDate) + BarOffset;
    assert |DateGrid(p.startDate, p.endDate)| == p.endDate - p.startDate + 1;
    HeaderRowIn(ws, body, p, BarOffset, 1);
    HeaderRowIn(ws, body, p, BarOffset, GridIndex(p.startDate, d) + BarOffset);
    HeaderRowIn(ws, body, p, BarOffset, b.fromCol);
    HeaderRowIn(ws, body, p, BarOffset, b.toCol);
  }
}
