/** The four sheets of the Excel export (`exportProjectToExcel`) as cell
    writes and fills, and the workbook that combines them. Column widths,
    fonts, alignment, merging and serialisation are not modelled. */
module Sheets {
  import opened Results
  import opened Dates
  import opened Models
  import opened Labels
  import opened Workdays
  import opened Cells
  import opened Timeline
  import opened Gantt

  datatype Sheet = Sheet(name: string, writes: seq<Write>, fills: seq<Fill>)

  /** The exported file: its download name, its MIME type and its four
      sheets, in tab order. */
  datatype Workbook = Workbook(fileName: string, contentType: string,
                               overview: Sheet, data: Sheet, timeline: Sheet, roster: Sheet)

  const OverviewName := "甘特图"
  const DataName := "甘特图数据"
  const TimelineName := "甘特图时间线"
  const RosterName := "团队成员信息"

  const FileSuffix := "_甘特图.xlsx"
  const ContentType := "application/vnd.openxmlformats-officedocument.spreadsheetml.sheet"

  /** Fill colour of the header style used on the overview and roster headers. */
  const HeaderColor := "366092"

  const OverviewHeaders: seq<string> :=
    ["阶段/任务", "开始日期", "结束日期", "工期(工作日)", "状态", "进度", "负责人", "优先级"]
  const DataHeaders: seq<string> :=
    ["项目", "阶段", "任务", "开始日期", "结束日期", "工期(工作日)", "状态", "进度", "负责人", "优先级"]
  const RosterHeaders: seq<string> := ["姓名", "角色", "邮箱", "头像", "加入时间", "状态"]

  /** First data row of each sheet. */
  const OverviewFirstRow := 9
  const DataFirstRow := 2
  const TimelineFirstRow := 5
  const RosterFirstRow := 2

  const StageMarker := "📁 "
  const TaskMarker := "  📄 "
  const TaskIndent := "  "

  function Texts(hs: seq<string>): (vs: seq<CellValue>)
    ensures |vs| == |hs|
    ensures forall i :: 0 <= i < |hs| ==> vs[i] == Text(hs[i])
  {
    seq(|hs|, i requires 0 <= i < |hs| => Text(hs[i]))
  }

  /** The assignee cell (column I) of a task row: written only for an
      assignee with a positive id. */
  function AssigneeCell(t: Task): Cells
  {
    if t.assignee.id > 0 then [(9, Text(t.assignee.name))] else []
  }

  // ---------------------------------------------------------------- Overview

  /** The project block at the top of the overview: the title in A1, then
      one label/value pair per row in A/B of rows 2..6. */
  function OverviewTitleRows(p: Project): seq<Cells>
  {
    [ RowFrom(1, [Text("项目甘特图")]),
      RowFrom(1, [Text("项目名称"), Text(p.name)]),
      RowFrom(1, [Text("项目描述"), Text(p.description)]),
      RowFrom(1, [Text("开始日期"), IsoDate(p.startDate)]),
      RowFrom(1, [Text("结束日期"), IsoDate(p.endDate)]),
      RowFrom(1, [Text("状态"), Text(StatusText(p.status))]) ]
  }

  function OverviewTitleWrites(p: Project): seq<Write>
  {
    EmitRows(OverviewTitleRows(p), 1)
  }

  /** A stage row: C..J, with blank assignee and priority. */
  function OverviewStageRow(s: Stage): Cells
  {
    RowFrom(3, [ Text(s.name), IsoDate(s.startDate), IsoDate(s.endDate),
                 Int(WorkDays(s.startDate, s.endDate)), Text(StatusText(s.status)),
                 Percent(s.progress), Text(""), Text("") ])
  }

  /** A task row: the name indented by two spaces, the assignee only when set. */
  function OverviewTaskRow(s: Stage, t: Task): Cells
  {
    RowFrom(3, [ Text(TaskIndent + t.name), IsoDate(t.startDate), IsoDate(t.endDate),
                 Int(WorkDays(t.startDate, t.endDate)), Text(StatusText(t.status)),
                 Percent(t.progress) ])
    + AssigneeCell(t)
    + [(10, Text(PriorityText(t.priority)))]
  }

  function OverviewRows(p: Project): seq<Cells>
  {
    Walk(p.stages, OverviewStageRow, OverviewTaskRow)
  }

  function OverviewSheet(p: Project): Sheet
  {
    Sheet(OverviewName,
          OverviewTitleWrites(p)
          + EmitRow(RowFrom(3, Texts(OverviewHeaders)), 8)
          + EmitRows(OverviewRows(p), OverviewFirstRow),
          [Fill(3, 10, 8, HeaderColor)])
  }

  // ------------------------------------------------------------ Tabular data

  function DataStageRow(projectName: string, s: Stage): Cells
  {
    RowFrom(1, [ Text(projectName), Text(s.name), Text(""),
                 IsoDate(s.startDate), IsoDate(s.endDate),
                 Int(WorkDays(s.startDate, s.endDate)), Text(StatusText(s.status)),
                 Percent(s.progress), Text(""), Text("") ])
  }

  /** A task row: the task name is not indented here. */
  function DataTaskRow(projectName: string, s: Stage, t: Task): Cells
  {
    RowFrom(1, [ Text(projectName), Text(s.name), Text(t.name),
                 IsoDate(t.startDate), IsoDate(t.endDate),
                 Int(WorkDays(t.startDate, t.endDate)), Text(StatusText(t.status)),
                 Percent(t.progress) ])
    + AssigneeCell(t)
    + [(10, Text(PriorityText(t.priority)))]
  }

  /** The stage-row builder of one project's data sheet. */
  function DataStageRowOf(projectName: string): (f: Stage -> Cells)
    ensures forall s :: f(s) == DataStageRow(projectName, s)
  {
    (s: Stage) => DataStageRow(projectName, s)
  }

  /** The task-row builder of one project's data sheet. */
  function DataTaskRowOf(projectName: string): (g: (Stage, Task) -> Cells)
    ensures forall s, t :: g(s, t) == DataTaskRow(projectName, s, t)
  {
    (s: Stage, t: Task) => DataTaskRow(projectName, s, t)
  }

  function DataRows(p: Project): seq<Cells>
  {
    Walk(p.stages, DataStageRowOf(p.name), DataTaskRowOf(p.name))
  }

  function DataSheet(p: Project): Sheet
  {
    Sheet(DataName,
          EmitRow(RowFrom(1, Texts(DataHeaders)), 1) + EmitRows(DataRows(p), DataFirstRow),
          [])
  }

  // -------------------------------------------------------- Visual timeline

  const TimelineLabelWrites: seq<Write> :=
    [ Write(1, 1, Text("任务/阶段")), Write(1, 2, Text("开始日期")),
      Write(1, 3, Text("结束日期")), Write(1, 4, Text("工期(工作日)")) ]

  /** A stage's timeline label: its folder-marked name in column A. */
  function TimelineStageCells(s: Stage): Cells
  {
    RowFrom(1, [Text(StageMarker + s.name)])
  }

  /** A task's timeline label: its indented, page-marked name in column A. */
  function TimelineTaskCells(s: Stage, t: Task): Cells
  {
    RowFrom(1, [Text(TaskMarker + t.name)])
  }

  function TimelineRows(p: Project): seq<Cells>
  {
    Walk(p.stages, TimelineStageCells, TimelineTaskCells)
  }

  /** The bar of a stage row for a project starting on `projectStart`. */
  function StageBarOf(projectStart: Day): (f: Stage -> Option<Bar>)
    ensures forall s :: f(s) == GanttBar(s.startDate, s.endDate, projectStart, StatusColor(s.status))
  {
    (s: Stage) => GanttBar(s.startDate, s.endDate, projectStart, StatusColor(s.status))
  }

  /** The bar of a task row for a project starting on `projectStart`. */
  function TaskBarOf(projectStart: Day): (g: (Stage, Task) -> Option<Bar>)
    ensures forall s, t :: g(s, t) == GanttBar(t.startDate, t.endDate, projectStart, StatusColor(t.status))
  {
    (s: Stage, t: Task) => GanttBar(t.startDate, t.endDate, projectStart, StatusColor(t.status))
  }

  /** The bar of every timeline row, in row order. */
  function Bars(p: Project): seq<Option<Bar>>
  {
    Walk(p.stages, StageBarOf(p.startDate), TaskBarOf(p.startDate))
  }

  /** The fills of consecutive rows' bars, the first row at `row0`. */
  function BarFills(bars: seq<Option<Bar>>, row0: int): (fs: seq<Fill>)
    ensures forall f :: f in fs <==>
      row0 <= f.row < row0 + |bars| && bars[f.row - row0] == Some(Bar(f.fromCol, f.toCol, f.color))
    decreases |bars|
  {
    if bars == [] then []
    else BarFill(bars[0], row0) + BarFills(bars[1..], row0 + 1)
  }

  /** The writes above the timeline body: the four labels of column A and
      the date header of row 1. */
  function TimelineHead(p: Project, col0: int): seq<Write>
  {
    TimelineLabelWrites + EmitRow(DateHeaderCells(p.startDate, p.endDate, col0), 1)
  }

  /** The timeline sheet with its date header starting in column `col0`. */
  function TimelineSheetFrom(p: Project, col0: int): Sheet
  {
    Sheet(TimelineName,
          TimelineHead(p, col0) + EmitRows(TimelineRows(p), TimelineFirstRow),
          WeekendFills(p.startDate, p.endDate, col0) + BarFills(Bars(p), TimelineFirstRow))
  }

  /** As the source writes it: the date header starts in column A. */
  function TimelineSheet(p: Project): Sheet
  {
    TimelineSheetFrom(p, HeaderFirstColumn)
  }

  /** Corrected layout: the date header starts in column B, where the bars
      put the project's first day. */
  function AlignedTimelineSheet(p: Project): Sheet
  {
    TimelineSheetFrom(p, BarOffset)
  }

  // -------------------------------------------------------------- Team roster

  function MemberRow(m: TeamMember): Cells
  {
    RowFrom(1, [ Text(m.name), Text(m.role), Text(m.email), Text(m.avatar),
                 IsoDate(m.createdAt), Text(if m.isActive then "活跃" else "非活跃") ])
  }

  function MemberRows(members: seq<TeamMember>): (rows: seq<Cells>)
    ensures |rows| == |members|
    ensures forall k :: 0 <= k < |members| ==> rows[k] == MemberRow(members[k])
  {
    seq(|members|, k requires 0 <= k < |members| => MemberRow(members[k]))
  }

  function RosterSheet(p: Project): Sheet
  {
    Sheet(RosterName,
          EmitRow(RowFrom(1, Texts(RosterHeaders)), 1) + EmitRows(MemberRows(p.teamMembers), RosterFirstRow),
          [Fill(1, 6, 1, HeaderColor)])
  }

  // ----------------------------------------------------------------- Workbook

  /** The exported document: four sheets in fixed order, named after the
      project. Its timeline sheet is the corrected layout, whose date header
      starts in column B like the bars (the layout as the source writes it is
      `TimelineSheet`). */
  function ExportWorkbook(p: Project): (wb: Workbook)
    ensures wb.overview.name == OverviewName && wb.data.name == DataName
    ensures wb.timeline.name == TimelineName && wb.roster.name == RosterName
    ensures wb.overview == OverviewSheet(p) && wb.data == DataSheet(p)
    ensures wb.timeline == AlignedTimelineSheet(p) && wb.roster == RosterSheet(p)
    ensures wb.fileName == p.name + FileSuffix && wb.contentType == ContentType
  {
    Workbook(p.name + FileSuffix, ContentType, OverviewSheet(p), DataSheet(p), AlignedTimelineSheet(p), RosterSheet(p))
  }
}
