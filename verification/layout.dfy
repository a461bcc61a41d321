/** What the export's sheets hold, cell by cell: document order, the
    per-column contents of stage and task rows, header placement and the
    extent of each sheet's body. */
module Layout {
  import opened Results
  import opened Dates
  import opened Models
  import opened Labels
  import opened Workdays
  import opened Cells
  import opened Timeline
  import opened Gantt
  import opened Sheets
  import Columns

  // ------------------------------------------------- Walk rows within a sheet

  /** In a sheet whose body is a walk emitted from `row0` below a prefix of
      earlier rows, stage i's row is read back at row0 + StagePos(i). */
  lemma SheetStageRow(ws: seq<Write>, prefix: seq<Write>, stages: seq<Stage>,
                      stageRow: Stage -> Cells, taskRow: (Stage, Task) -> Cells, row0: int, i: nat)
    requires ws == prefix + EmitRows(Walk(stages, stageRow, taskRow), row0)
    requires forall k :: 0 <= k < |prefix| ==> prefix[k].row < row0
    requires i < |stages|
    ensures forall col :: Lookup(ws, col, row0 + StagePos(stages, i)) == RowLookup(stageRow(stages[i]), col)
  {
    WalkStageAt(stages, stageRow, taskRow, i);
    SheetRowAt(ws, prefix, Walk(stages, stageRow, taskRow), row0, StagePos(stages, i), stageRow(stages[i]));
  }

  /** One column of stage i's row, as `SheetStageRow` gives all of them. */
  lemma SheetStageCell(ws: seq<Write>, prefix: seq<Write>, stages: seq<Stage>,
                       stageRow: Stage -> Cells, taskRow: (Stage, Task) -> Cells, row0: int, i: nat, col: int)
    requires ws == prefix + EmitRows(Walk(stages, stageRow, taskRow), row0)
    requires forall k :: 0 <= k < |prefix| ==> prefix[k].row < row0
    requires i < |stages|
    ensures Lookup(ws, col, row0 + StagePos(stages, i)) == RowLookup(stageRow(stages[i]), col)
  {
    SheetStageRow(ws, prefix, stages, stageRow, taskRow, row0, i);
  }

  /** One column of task j's row, as `SheetTaskRow` gives all of them. */
  lemma SheetTaskCell(ws: seq<Write>, prefix: seq<Write>, stages: seq<Stage>,
                      stageRow: Stage -> Cells, taskRow: (Stage, Task) -> Cells, row0: int, i: nat, j: nat, col: int)
    requires ws == prefix + EmitRows(Walk(stages, stageRow, taskRow), row0)
    requires forall k :: 0 <= k < |prefix| ==> prefix[k].row < row0
    requires i < |stages| && j < |stages[i].tasks|
    ensures Lookup(ws, col, row0 + StagePos(stages, i) + 1 + j) == RowLookup(taskRow(stages[i], stages[i].tasks[j]), col)
  {
    SheetTaskRow(ws, prefix, stages, stageRow, taskRow, row0, i, j);
  }

  /** Likewise task j of stage i is read back at row0 + StagePos(i) + 1 + j. */
  lemma SheetTaskRow(ws: seq<Write>, prefix: seq<Write>, stages: seq<Stage>,
                     stageRow: Stage -> Cells, taskRow: (Stage, Task) -> Cells, row0: int, i: nat, j: nat)
    requires ws == prefix + EmitRows(Walk(stages, stageRow, taskRow), row0)
    requires forall k :: 0 <= k < |prefix| ==> prefix[k].row < row0
    requires i < |stages| && j < |stages[i].tasks|
    ensures forall col :: Lookup(ws, col, row0 + StagePos(stages, i) + 1 + j)
                        == RowLookup(taskRow(stages[i], stages[i].tasks[j]), col)
  {
    WalkTaskAt(stages, stageRow, taskRow, i, j);
    SheetRowAt(ws, prefix, Walk(stages, stageRow, taskRow), row0, StagePos(stages, i) + 1 + j,
               taskRow(stages[i], stages[i].tasks[j]));
  }

  // ---------------------------------------------------------------- Overview

  lemma OverviewBody(p: Project, col: int, r: int)
    requires r >= OverviewFirstRow
    ensures Lookup(OverviewSheet(p).writes, col, r) ==
      if r < OverviewFirstRow + |OverviewRows(p)| then RowLookup(OverviewRows(p)[r - OverviewFirstRow], col) else None
  {
    var prefix := OverviewTitleWrites(p) + EmitRow(RowFrom(3, Texts(OverviewHeaders)), 8);
    SheetBodyLookup(OverviewSheet(p).writes, prefix, OverviewRows(p), OverviewFirstRow, col, r);
  }

  lemma OverviewStageRowReads(s: Stage)
    ensures var row := OverviewStageRow(s);
      && RowLookup(row, 3) == Some(Text(s.name))
      && RowLookup(row, 4) == Some(IsoDate(s.startDate))
      && RowLookup(row, 5) == Some(IsoDate(s.endDate))
      && RowLookup(row, 6) == Some(Int(WorkDays(s.startDate, s.endDate)))
      && RowLookup(row, 7) == Some(Text(StatusText(s.status)))
      && RowLookup(row, 8) == Some(Percent(s.progress))
      && RowLookup(row, 9) == Some(Text(""))
      && RowLookup(row, 10) == Some(Text(""))
      && RowLookup(row, 1) == None && RowLookup(row, 2) == None
  {
    var values := [ Text(s.name), IsoDate(s.startDate), IsoDate(s.endDate),
                    Int(WorkDays(s.startDate, s.endDate)), Text(StatusText(s.status)),
                    Percent(s.progress), Text(""), Text("") ];
    RowFromLookup(3, values, 1);
    RowFromLookup(3, values, 2);
    RowFromLookup(3, values, 3);
    RowFromLookup(3, values, 4);
    RowFromLookup(3, values, 5);
    RowFromLookup(3, values, 6);
    RowFromLookup(3, values, 7);
    RowFromLookup(3, values, 8);
    RowFromLookup(3, values, 9);
    RowFromLookup(3, values, 10);
  }

  /** The row of stage i, at row 9 + its position: name, dates, business
      days, status label and progress in C..H, blank assignee and priority
      in I and J, nothing in A or B. */
  lemma OverviewStageCells(p: Project, i: nat)
    requires i < |p.stages|
    ensures var s, r, ws := p.stages[i], OverviewFirstRow + StagePos(p.stages, i), OverviewSheet(p).writes;
      && Lookup(ws, 3, r) == Some(Text(s.name))
      && Lookup(ws, 4, r) == Some(IsoDate(s.startDate))
      && Lookup(ws, 5, r) == Some(IsoDate(s.endDate))
      && Lookup(ws, 6, r) == Some(Int(WorkDays(s.startDate, s.endDate)))
      && Lookup(ws, 7, r) == Some(Text(StatusText(s.status)))
      && Lookup(ws, 8, r) == Some(Percent(s.progress))
      && Lookup(ws, 9, r) == Some(Text(""))
      && Lookup(ws, 10, r) == Some(Text(""))
      && Lookup(ws, 1, r) == None && Lookup(ws, 2, r) == None
  {
    var prefix := OverviewTitleWrites(p) + EmitRow(RowFrom(3, Texts(OverviewHeaders)), 8);
    SheetStageRow(OverviewSheet(p).writes, prefix, p.stages, OverviewStageRow, OverviewTaskRow, OverviewFirstRow, i);
    OverviewStageRowReads(p.stages[i]);
  }

  /** The six leading cells of a task row read back by column. */
  lemma TaskRowLead(lead: Cells, assignee: Cells, tail: Cells, col: int)
    requires forall j :: 0 <= j < |assignee| ==> assignee[j].0 == 9
    requires forall j :: 0 <= j < |tail| ==> tail[j].0 == 10
    requires col != 9 && col != 10
    ensures RowLookup(lead + assignee + tail, col) == RowLookup(lead, col)
  {
    RowLookupConcat(lead + assignee, tail, col);
    RowLookupAbsent(tail, col);
    RowLookupConcat(lead, assignee, col);
    RowLookupAbsent(assignee, col);
  }

  /** The assignee and priority cells ending a task row. */
  lemma TaskRowTail(lead: Cells, t: Task, tail: Cells)
    requires forall j :: 0 <= j < |lead| ==> lead[j].0 < 9
    requires tail == [(10, Text(PriorityText(t.priority)))]
    ensures RowLookup(lead + AssigneeCell(t) + tail, 9) == if t.assignee.id > 0 then Some(Text(t.assignee.name)) else None
    ensures RowLookup(lead + AssigneeCell(t) + tail, 10) == Some(Text(PriorityText(t.priority)))
  {
    RowLookupConcat(lead + AssigneeCell(t), tail, 10);
    RowLookupConcat(lead + AssigneeCell(t), tail, 9);
    RowLookupAbsent(tail, 9);
    RowLookupConcat(lead, AssigneeCell(t), 9);
    RowLookupAbsent(lead, 9);
  }

  lemma OverviewTaskRowReads(s: Stage, t: Task)
    ensures var row := OverviewTaskRow(s, t);
      && RowLookup(row, 3) == Some(Text(TaskIndent + t.name))
      && RowLookup(row, 4) == Some(IsoDate(t.startDate))
      && RowLookup(row, 5) == Some(IsoDate(t.endDate))
      && RowLookup(row, 6) == Some(Int(WorkDays(t.startDate, t.endDate)))
      && RowLookup(row, 7) == Some(Text(StatusText(t.status)))
      && RowLookup(row, 8) == Some(Percent(t.progress))
      && RowLookup(row, 9) == (if t.assignee.id > 0 then Some(Text(t.assignee.name)) else None)
      && RowLookup(row, 10) == Some(Text(PriorityText(t.priority)))
  {
    var values := [ Text(TaskIndent + t.name), IsoDate(t.startDate), IsoDate(t.endDate),
                    Int(WorkDays(t.startDate, t.endDate)), Text(StatusText(t.status)),
                    Percent(t.progress) ];
    var lead, tail := RowFrom(3, values), [(10, Text(PriorityText(t.priority)))];
    assert OverviewTaskRow(s, t) == lead + AssigneeCell(t) + tail;
    TaskRowLead(lead, AssigneeCell(t), tail, 3);
    TaskRowLead(lead, AssigneeCell(t), tail, 4);
    TaskRowLead(lead, AssigneeCell(t), tail, 5);
    TaskRowLead(lead, AssigneeCell(t), tail, 6);
    TaskRowLead(lead, AssigneeCell(t), tail, 7);
    TaskRowLead(lead, AssigneeCell(t), tail, 8);
    RowFromLookup(3, values, 3);
    RowFromLookup(3, values, 4);
    RowFromLookup(3, values, 5);
    RowFromLookup(3, values, 6);
    RowFromLookup(3, values, 7);
    RowFromLookup(3, values, 8);
    TaskRowTail(lead, t, tail);
  }

  /** Task j of stage i, right after its stage row and earlier siblings: the
      name indented by two spaces in C, its business days in F, the
      assignee's name in I only when the assignee id is positive (otherwise
      I is never written), and the priority label in J. */
  lemma OverviewTaskCells(p: Project, i: nat, j: nat)
    requires i < |p.stages| && j < |p.stages[i].tasks|
    ensures var s, t := p.stages[i], p.stages[i].tasks[j];
      var r, ws := OverviewFirstRow + StagePos(p.stages, i) + 1 + j, OverviewSheet(p).writes;
      && Lookup(ws, 3, r) == Some(Text(TaskIndent + t.name))
      && Lookup(ws, 4, r) == Some(IsoDate(t.startDate))
      && Lookup(ws, 5, r) == Some(IsoDate(t.endDate))
      && Lookup(ws, 6, r) == Some(Int(WorkDays(t.startDate, t.endDate)))
      && Lookup(ws, 7, r) == Some(Text(StatusText(t.status)))
      && Lookup(ws, 8, r) == Some(Percent(t.progress))
      && Lookup(ws, 9, r) == (if t.assignee.id > 0 then Some(Text(t.assignee.name)) else None)
      && Lookup(ws, 10, r) == Some(Text(PriorityText(t.priority)))
  {
    var prefix := OverviewTitleWrites(p) + EmitRow(RowFrom(3, Texts(OverviewHeaders)), 8);
    SheetTaskRow(OverviewSheet(p).writes, prefix, p.stages, OverviewStageRow, OverviewTaskRow, OverviewFirstRow, i, j);
    OverviewTaskRowReads(p.stages[i], p.stages[i].tasks[j]);
  }

  /** The rows above the overview body: the title block, and the header
      row 8. */
  lemma OverviewHead(p: Project, c: int, r: int)
    requires r < OverviewFirstRow
    ensures Lookup(OverviewSheet(p).writes, c, r) ==
      if r == 8 then RowLookup(RowFrom(3, Texts(OverviewHeaders)), c) else Lookup(OverviewTitleWrites(p), c, r)
  {
    var t, h := OverviewTitleWrites(p), EmitRow(RowFrom(3, Texts(OverviewHeaders)), 8);
    SheetPrefixLookup(OverviewSheet(p).writes, t + h, OverviewRows(p), OverviewFirstRow, c, r);
    LookupConcat(t, h, c, r);
    EmitRowLookup(RowFrom(3, Texts(OverviewHeaders)), 8, c, r);
    if r == 8 {
      LookupUnwritten(t, c, r);
    }
  }

  lemma TitleWritesReads(p: Project)
    ensures var t := OverviewTitleWrites(p);
      && Lookup(t, 1, 1) == Some(Text("项目甘特图"))
      && Lookup(t, 2, 2) == Some(Text(p.name))
      && Lookup(t, 2, 3) == Some(Text(p.description))
      && Lookup(t, 2, 4) == Some(IsoDate(p.startDate))
      && Lookup(t, 2, 5) == Some(IsoDate(p.endDate))
      && Lookup(t, 2, 6) == Some(Text(StatusText(p.status)))
  {
    var rows := OverviewTitleRows(p);
    EmitRowsLookup(rows, 1, 1, 1);
    EmitRowsLookup(rows, 1, 2, 2);
    EmitRowsLookup(rows, 1, 2, 3);
    EmitRowsLookup(rows, 1, 2, 4);
    EmitRowsLookup(rows, 1, 2, 5);
    EmitRowsLookup(rows, 1, 2, 6);
    RowFromLookup(1, [Text("项目甘特图")], 1);
    RowFromLookup(1, [Text("项目名称"), Text(p.name)], 2);
    RowFromLookup(1, [Text("项目描述"), Text(p.description)], 2);
    RowFromLookup(1, [Text("开始日期"), IsoDate(p.startDate)], 2);
    RowFromLookup(1, [Text("结束日期"), IsoDate(p.endDate)], 2);
    RowFromLookup(1, [Text("状态"), Text(StatusText(p.status))], 2);
  }

  /** Project identity block: label/value pairs in A/B of rows 2..6. */
  lemma OverviewTitleBlock(p: Project)
    ensures var ws := OverviewSheet(p).writes;
      && Lookup(ws, 1, 1) == Some(Text("项目甘特图"))
      && Lookup(ws, 2, 2) == Some(Text(p.name))
      && Lookup(ws, 2, 3) == Some(Text(p.description))
      && Lookup(ws, 2, 4) == Some(IsoDate(p.startDate))
      && Lookup(ws, 2, 5) == Some(IsoDate(p.endDate))
      && Lookup(ws, 2, 6) == Some(Text(StatusText(p.status)))
  {
    OverviewHead(p, 1, 1);
    OverviewHead(p, 2, 2);
    OverviewHead(p, 2, 3);
    OverviewHead(p, 2, 4);
    OverviewHead(p, 2, 5);
    OverviewHead(p, 2, 6);
    TitleWritesReads(p);
  }

  /** The eight table headers occupy exactly C8..J8; column 3 + i is the
      single letter 'A' + i + 2 the source computes for header i. */
  lemma OverviewHeaderCells(p: Project, i: nat, col: int)
    requires i < |OverviewHeaders|
    ensures Lookup(OverviewSheet(p).writes, 3 + i, 8) == Some(Text(OverviewHeaders[i]))
    ensures Columns.ColumnLetter(3 + i) == [('A' as int + i + 2) as char]
    ensures col < 3 || col > 10 ==> Lookup(OverviewSheet(p).writes, col, 8) == None
  {
    OverviewHead(p, 3 + i, 8);
    OverviewHead(p, col, 8);
    RowFromLookup(3, Texts(OverviewHeaders), 3 + i);
    RowFromLookup(3, Texts(OverviewHeaders), col);
    Columns.SingleLetterColumns(3 + i);
  }

  /** The overview body spans exactly Σ(1 + |tasks|) rows from row 9: each
      of them has a name in column C and nothing is written below them. */
  lemma OverviewExtent(p: Project, col: int, r: int)
    requires r >= OverviewFirstRow
    ensures r < OverviewFirstRow + RowCount(p.stages) ==> Lookup(OverviewSheet(p).writes, 3, r).Some?
    ensures r >= OverviewFirstRow + RowCount(p.stages) ==> Lookup(OverviewSheet(p).writes, col, r) == None
  {
    WalkLength(p.stages, OverviewStageRow, OverviewTaskRow);
    OverviewBody(p, col, r);
    OverviewBody(p, 3, r);
    forall s | s in p.stages
      ensures RowLookup(OverviewStageRow(s), 3).Some?
    {
      OverviewStageRowReads(s);
    }
    forall s, t | s in p.stages && t in s.tasks
      ensures RowLookup(OverviewTaskRow(s, t), 3).Some?
    {
      OverviewTaskRowReads(s, t);
    }
    WalkPreserves(p.stages, OverviewStageRow, OverviewTaskRow, (row: Cells) => RowLookup(row, 3).Some?);
  }

  // ------------------------------------------------------------ Tabular data

  lemma DataBody(p: Project, col: int, r: int)
    requires r >= DataFirstRow
    ensures Lookup(DataSheet(p).writes, col, r) ==
      if r < DataFirstRow + |DataRows(p)| then RowLookup(DataRows(p)[r - DataFirstRow], col) else None
  {
    var prefix := EmitRow(RowFrom(1, Texts(DataHeaders)), 1);
    SheetBodyLookup(DataSheet(p).writes, prefix, DataRows(p), DataFirstRow, col, r);
  }

  lemma DataStageRowReads(name: string, s: Stage)
    ensures var row := DataStageRow(name, s);
      && RowLookup(row, 1) == Some(Text(name))
      && RowLookup(row, 2) == Some(Text(s.name))
      && RowLookup(row, 3) == Some(Text(""))
      && RowLookup(row, 4) == Some(IsoDate(s.startDate))
      && RowLookup(row, 5) == Some(IsoDate(s.endDate))
      && RowLookup(row, 6) == Some(Int(WorkDays(s.startDate, s.endDate)))
      && RowLookup(row, 7) == Some(Text(StatusText(s.status)))
      && RowLookup(row, 8) == Some(Percent(s.progress))
      && RowLookup(row, 9) == Some(Text(""))
      && RowLookup(row, 10) == Some(Text(""))
  {
    var values := [ Text(name), Text(s.name), Text(""),
                    IsoDate(s.startDate), IsoDate(s.endDate),
                    Int(WorkDays(s.startDate, s.endDate)), Text(StatusText(s.status)),
                    Percent(s.progress), Text(""), Text("") ];
    RowFromLookup(1, values, 1);
    RowFromLookup(1, values, 2);
    RowFromLookup(1, values, 3);
    RowFromLookup(1, values, 4);
    RowFromLookup(1, values, 5);
    RowFromLookup(1, values, 6);
    RowFromLookup(1, values, 7);
    RowFromLookup(1, values, 8);
    RowFromLookup(1, values, 9);
    RowFromLookup(1, values, 10);
  }

  lemma DataTaskRowReads(name: string, s: Stage, t: Task)
    ensures var row := DataTaskRow(name, s, t);
      && RowLookup(row, 1) == Some(Text(name))
      && RowLookup(row, 2) == Some(Text(s.name))
      && RowLookup(row, 3) == Some(Text(t.name))
      && RowLookup(row, 4) == Some(IsoDate(t.startDate))
      && RowLookup(row, 5) == Some(IsoDate(t.endDate))
      && RowLookup(row, 6) == Some(Int(WorkDays(t.startDate, t.endDate)))
      && RowLookup(row, 7) == Some(Text(StatusText(t.status)))
      && RowLookup(row, 8) == Some(Percent(t.progress))
      && RowLookup(row, 9) == (if t.assignee.id > 0 then Some(Text(t.assignee.name)) else None)
      && RowLookup(row, 10) == Some(Text(PriorityText(t.priority)))
  {
    var values := [ Text(name), Text(s.name), Text(t.name),
                    IsoDate(t.startDate), IsoDate(t.endDate),
                    Int(WorkDays(t.startDate, t.endDate)), Text(StatusText(t.status)),
                    Percent(t.progress) ];
    var lead, tail := RowFrom(1, values), [(10, Text(PriorityText(t.priority)))];
    assert DataTaskRow(name, s, t) == lead + AssigneeCell(t) + tail;
    TaskRowLead(lead, AssigneeCell(t), tail, 1);
    TaskRowLead(lead, AssigneeCell(t), tail, 2);
    TaskRowLead(lead, AssigneeCell(t), tail, 3);
    TaskRowLead(lead, AssigneeCell(t), tail, 4);
    TaskRowLead(lead, AssigneeCell(t), tail, 5);
    TaskRowLead(lead, AssigneeCell(t), tail, 6);
    TaskRowLead(lead, AssigneeCell(t), tail, 7);
    TaskRowLead(lead, AssigneeCell(t), tail, 8);
    RowFromLookup(1, values, 1);
    RowFromLookup(1, values, 2);
    RowFromLookup(1, values, 3);
    RowFromLookup(1, values, 4);
    RowFromLookup(1, values, 5);
    RowFromLookup(1, values, 6);
    RowFromLookup(1, values, 7);
    RowFromLookup(1, values, 8);
    TaskRowTail(lead, t, tail);
  }

  /** The data row of stage i, at row 2 + its position: project and stage
      names, a blank task name, the stage's dates, business days, status
      label and progress, and blank assignee and priority. */
  lemma DataStageCells(p: Project, i: nat)
    requires i < |p.stages|
    ensures var s, r, ws := p.stages[i], DataFirstRow + StagePos(p.stages, i), DataSheet(p).writes;
      && Lookup(ws, 1, r) == Some(Text(p.name))
      && Lookup(ws, 2, r) == Some(Text(s.name))
      && Lookup(ws, 3, r) == Some(Text(""))
      && Lookup(ws, 4, r) == Some(IsoDate(s.startDate))
      && Lookup(ws, 5, r) == Some(IsoDate(s.endDate))
      && Lookup(ws, 6, r) == Some(Int(WorkDays(s.startDate, s.endDate)))
      && Lookup(ws, 7, r) == Some(Text(StatusText(s.status)))
      && Lookup(ws, 8, r) == Some(Percent(s.progress))
      && Lookup(ws, 9, r) == Some(Text(""))
      && Lookup(ws, 10, r) == Some(Text(""))
  {
    var prefix := EmitRow(RowFrom(1, Texts(DataHeaders)), 1);
    SheetStageRow(DataSheet(p).writes, prefix, p.stages, DataStageRowOf(p.name), DataTaskRowOf(p.name), DataFirstRow, i);
    DataStageRowReads(p.name, p.stages[i]);
  }

  /** The data row of task j of stage i: its stage's name in B, its own name
      in C without indentation, its dates, business days, status label and
      progress, the assignee only for a positive assignee id, and the
      priority label. */
  lemma DataTaskCells(p: Project, i: nat, j: nat)
    requires i < |p.stages| && j < |p.stages[i].tasks|
    ensures var s, t := p.stages[i], p.stages[i].tasks[j];
      var r, ws := DataFirstRow + StagePos(p.stages, i) + 1 + j, DataSheet(p).writes;
      && Lookup(ws, 1, r) == Some(Text(p.name))
      && Lookup(ws, 2, r) == Some(Text(s.name))
      && Lookup(ws, 3, r) == Some(Text(t.name))
      && Lookup(ws, 4, r) == Some(IsoDate(t.startDate))
      && Lookup(ws, 5, r) == Some(IsoDate(t.endDate))
      && Lookup(ws, 6, r) == Some(Int(WorkDays(t.startDate, t.endDate)))
      && Lookup(ws, 7, r) == Some(Text(StatusText(t.status)))
      && Lookup(ws, 8, r) == Some(Percent(t.progress))
      && Lookup(ws, 9, r) == (if t.assignee.id > 0 then Some(Text(t.assignee.name)) else None)
      && Lookup(ws, 10, r) == Some(Text(PriorityText(t.priority)))
  {
    var prefix := EmitRow(RowFrom(1, Texts(DataHeaders)), 1);
    SheetTaskRow(DataSheet(p).writes, prefix, p.stages, DataStageRowOf(p.name), DataTaskRowOf(p.name), DataFirstRow, i, j);
    DataTaskRowReads(p.name, p.stages[i], p.stages[i].tasks[j]);
  }

  /** Every body row of the data sheet repeats the project name in column A,
      and the body spans exactly Σ(1 + |tasks|) rows from row 2. */
  lemma DataProjectColumn(p: Project, col: int, r: int)
    requires r >= DataFirstRow
    ensures r < DataFirstRow + RowCount(p.stages) ==> Lookup(DataSheet(p).writes, 1, r) == Some(Text(p.name))
    ensures r >= DataFirstRow + RowCount(p.stages) ==> Lookup(DataSheet(p).writes, col, r) == None
  {
    var f, g := DataStageRowOf(p.name), DataTaskRowOf(p.name);
    WalkLength(p.stages, f, g);
    DataBody(p, col, r);
    DataBody(p, 1, r);
    forall s | s in p.stages
      ensures RowLookup(f(s), 1) == Some(Text(p.name))
    {
      DataStageRowReads(p.name, s);
    }
    forall s, t | s in p.stages && t in s.tasks
      ensures RowLookup(g(s, t), 1) == Some(Text(p.name))
    {
      DataTaskRowReads(p.name, s, t);
    }
    WalkPreserves(p.stages, f, g, (row: Cells) => RowLookup(row, 1) == Some(Text(p.name)));
  }

  /** The ten data headers occupy exactly A1..J1. */
  lemma DataHeaderCells(p: Project, i: nat, col: int)
    requires i < |DataHeaders|
    ensures Lookup(DataSheet(p).writes, 1 + i, 1) == Some(Text(DataHeaders[i]))
    ensures col < 1 || col > 10 ==> Lookup(DataSheet(p).writes, col, 1) == None
  {
    var h := EmitRow(RowFrom(1, Texts(DataHeaders)), 1);
    SheetPrefixLookup(DataSheet(p).writes, h, DataRows(p), DataFirstRow, 1 + i, 1);
    SheetPrefixLookup(DataSheet(p).writes, h, DataRows(p), DataFirstRow, col, 1);
    EmitRowLookup(RowFrom(1, Texts(DataHeaders)), 1, 1 + i, 1);
    EmitRowLookup(RowFrom(1, Texts(DataHeaders)), 1, col, 1);
    RowFromLookup(1, Texts(DataHeaders), 1 + i);
    RowFromLookup(1, Texts(DataHeaders), col);
  }

  // -------------------------------------------------------------- Team roster

  /** The roster body: row 2 + k is member k's row, and nothing lies below. */
  lemma RosterBody(p: Project, col: int, r: int)
    requires r >= RosterFirstRow
    ensures Lookup(RosterSheet(p).writes, col, r) ==
      if r < RosterFirstRow + |p.teamMembers| then RowLookup(MemberRow(p.teamMembers[r - RosterFirstRow]), col) else None
  {
    var prefix := EmitRow(RowFrom(1, Texts(RosterHeaders)), 1);
    SheetBodyLookup(RosterSheet(p).writes, prefix, MemberRows(p.teamMembers), RosterFirstRow, col, r);
  }

  /** Member k's row, read column by column. */
  lemma RosterRowAt(p: Project, k: nat)
    requires k < |p.teamMembers|
    ensures forall col :: Lookup(RosterSheet(p).writes, col, RosterFirstRow + k) == RowLookup(MemberRow(p.teamMembers[k]), col)
  {
    forall col
      ensures Lookup(RosterSheet(p).writes, col, RosterFirstRow + k) == RowLookup(MemberRow(p.teamMembers[k]), col)
    {
      RosterBody(p, col, RosterFirstRow + k);
    }
  }

  lemma MemberRowReads(m: TeamMember)
    ensures var row := MemberRow(m);
      && RowLookup(row, 1) == Some(Text(m.name))
      && RowLookup(row, 2) == Some(Text(m.role))
      && RowLookup(row, 3) == Some(Text(m.email))
      && RowLookup(row, 4) == Some(Text(m.avatar))
      && RowLookup(row, 5) == Some(IsoDate(m.createdAt))
      && RowLookup(row, 6) == Some(Text(if m.isActive then "活跃" else "非活跃"))
  {
    var values := [ Text(m.name), Text(m.role), Text(m.email), Text(m.avatar),
                    IsoDate(m.createdAt), Text(if m.isActive then "活跃" else "非活跃") ];
    RowFromLookup(1, values, 1);
    RowFromLookup(1, values, 2);
    RowFromLookup(1, values, 3);
    RowFromLookup(1, values, 4);
    RowFromLookup(1, values, 5);
    RowFromLookup(1, values, 6);
  }

  /** One roster row per team member from row 2, in stored order, and
      nothing below them: name, role, email and avatar in A..D, the join
      date in E, and a status column reading 活跃 exactly for active
      members. */
  lemma RosterCells(p: Project, k: nat, col: int, r: int)
    requires k < |p.teamMembers|
    requires r >= RosterFirstRow + |p.teamMembers|
    ensures var m, ws := p.teamMembers[k], RosterSheet(p).writes;
      && Lookup(ws, 1, RosterFirstRow + k) == Some(Text(m.name))
      && Lookup(ws, 2, RosterFirstRow + k) == Some(Text(m.role))
      && Lookup(ws, 3, RosterFirstRow + k) == Some(Text(m.email))
      && Lookup(ws, 4, RosterFirstRow + k) == Some(Text(m.avatar))
      && Lookup(ws, 5, RosterFirstRow + k) == Some(IsoDate(m.createdAt))
      && Lookup(ws, 6, RosterFirstRow + k) == Some(Text(if m.isActive then "活跃" else "非活跃"))
      && Lookup(ws, col, r) == None
  {
    RosterRowAt(p, k);
    RosterBody(p, col, r);
    MemberRowReads(p.teamMembers[k]);
  }

  /** The six roster headers occupy exactly A1..F1. */
  lemma RosterHeaderCells(p: Project, i: nat, col: int)
    requires i < |RosterHeaders|
    ensures Lookup(RosterSheet(p).writes, 1 + i, 1) == Some(Text(RosterHeaders[i]))
    ensures col < 1 || col > 6 ==> Lookup(RosterSheet(p).writes, col, 1) == None
  {
    var h := EmitRow(RowFrom(1, Texts(RosterHeaders)), 1);
    SheetPrefixLookup(RosterSheet(p).writes, h, MemberRows(p.teamMembers), RosterFirstRow, 1 + i, 1);
    SheetPrefixLookup(RosterSheet(p).writes, h, MemberRows(p.teamMembers), RosterFirstRow, col, 1);
    EmitRowLookup(RowFrom(1, Texts(RosterHeaders)), 1, 1 + i, 1);
    EmitRowLookup(RowFrom(1, Texts(RosterHeaders)), 1, col, 1);
    RowFromLookup(1, Texts(RosterHeaders), 1 + i);
    RowFromLookup(1, Texts(RosterHeaders), col);
  }

  /** Below the last member the roster is empty, also when there are no
      members at all. */
  lemma RosterExtent(p: Project, col: int, r: int)
    requires r >= RosterFirstRow + |p.teamMembers|
    ensures Lookup(RosterSheet(p).writes, col, r) == None
  {
    RosterBody(p, col, r);
  }
}
