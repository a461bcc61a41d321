# gantt-excel in Dafny

A model of the backend core of gantt-excel, a project-planning service. A
project has stages, each stage has tasks, and the project has team members.
The service exports a project as an Excel workbook with four sheets:

- 甘特图: overview, with a project block and a stage/task table;
- 甘特图数据: flat data, one row per stage or task;
- 甘特图时间线: visual timeline, with a date header and coloured Gantt bars;
- 团队成员信息: team roster.

The model covers:

- the helpers the export uses:
  - `calculateWorkDays`: Monday–Friday count;
  - `getStatusText` and `getPriorityText`: Chinese labels;
  - `getStatusColor`: bar colours;
  - `getColumnLetter`: spreadsheet column letters;
  - the column arithmetic of `drawGanttBar`;
- the cell layout of all four sheets of `exportProjectToExcel`;
- the nested structure `generateTimeline` returns;
- the request rules of `createProject`, `updateStage` and `updateTask`.

Modelling choices:

- **Dates** are whole day numbers counted from 0001-01-01, Go's zero time.
  - "Unset" (Go's `IsZero`) is day 0.
  - The weekday is `(d + 1) % 7` with Sunday = 0, because 0001-01-01 is a Monday.
  - 2024-01-01 is day 738885.
- **A sheet** is the ordered list of its cell writes plus the coloured fills applied to it.
  - A cell holds the value of its last write, since `SetCellValue` overwrites.
  - `Cells.Lookup` reads a cell.
  - Date and percentage formatting stay symbolic: `IsoDate(d)`, `ShortDate(d)`, `Percent(p)`.
- **The traversal order** shared by every per-row loop of the export and by `generateTimeline` is `Timeline.Walk`.
  - Each stage comes first, then its tasks.
  - Stage `i` sits at position `StagePos(stages, i)`, the row count of the stages before it.
- **`time.Parse`** with the layout "2006-01-02" is the parameter `parse` of the update rules.
- **A failed `value.(string)` type assertion** in an update is `Err(TypeAssertion(field))`.
  - In the source it panics, and gin's recovery answers 500 without saving.

## Model

| member | source | states |
|---|---|---|
| Workdays.CalculateWorkDays | backend/handlers.go:761-776 | The day-by-day loop returns the number of Monday–Friday days in the inclusive range. It returns 0 when either date is unset or the range is inverted, and never more than the number of calendar days. |
| Workdays.WorkDaysEdgeCases | backend/handlers.go:762-775 | An unset date or an inverted range gives 0. A single set day counts 1 exactly when it is a weekday, and 0 exactly when it is a weekend day. |
| Workdays.WorkdaysBounded | backend/handlers.go:766-774 | The count is at most the number of calendar days, and 0 for an empty range. |
| Workdays.WorkdaysMonotone | backend/handlers.go:766-774 | Extending the end date never lowers the count. |
| Workdays.WorkdaysSplit | backend/handlers.go:766-774 | Counting a range equals counting its two halves split at any day. |
| Workdays.WorkdaysInWeek | backend/handlers.go:766-774 | Any seven consecutive days hold exactly five workdays, whatever the start weekday. |
| Workdays.WorkdaysInWeeks | backend/handlers.go:766-774 | k whole weeks from any start day hold exactly 5k workdays. |
| Workdays.WorkDaysMonotoneBounded | backend/handlers.go:761-776 | For set end dates the exported duration is monotone in the end date and bounded by the calendar length. |
| Workdays.January2024 | backend/handlers.go:761-776 | 2024-01-01 is a Monday. 2024-01-01..10 has 8 workdays, 01..05 has 5, and 02..03 has 2. |
| Dates.Weekday | backend/handlers.go:768-769 | The weekday is always one of the seven values 0..6. |
| Dates.DateGrid | backend/handlers.go:618-637 | The timeline header has one column per calendar day from the project start to its end, weekends included. It has end − start + 1 days, day k is start + k, and it is empty when the range is inverted. |
| Dates.GridIndexRoundTrip | backend/handlers.go:618-637 | The grid column of a day and the day of a grid column are inverse. |
| Labels.StatusText | backend/handlers.go:779-791 | The five known status codes map to their labels. Any other code is returned unchanged. |
| Labels.StatusTextFallback | backend/handlers.go:779-791 | The result equals the input exactly when the code is unknown. Distinct known codes get distinct labels. |
| Labels.PriorityText | backend/handlers.go:794-805 | The four known priorities map to their labels. Anything else becomes 中, the "medium" label. The result is always one of the four labels. |
| Labels.PriorityTextFallback | backend/handlers.go:794-805 | An unknown priority reads exactly as "medium" does. The result is 中 iff the input is "medium" or unknown. |
| Labels.StatusColor | backend/handlers.go:819-831 | The five known statuses map to their colours. Any other status gets grey E0E0E0. |
| Labels.StatusColorFallback | backend/handlers.go:819-831 | The colour table and the status table have the same keys. A status is grey exactly when its label falls back to itself. No bar colour equals the weekend mark colour. |
| Columns.ColumnLetter | backend/handlers.go:807-816 | Column numbers up to 0 give the empty name. Every positive number gives a non-empty name of letters A–Z. |
| Columns.ColumnNumber | backend/handlers.go:807-816 | A name's bijective base-26 value is positive for every non-empty name. |
| Columns.GetColumnLetter | backend/handlers.go:808-816 | The source's loop computes `ColumnLetter(col)`, and decoding its result gives back `col` for every positive column. |
| Columns.DecodeEncode | backend/handlers.go:808-816 | Decoding the name of column n ≥ 1 gives n. |
| Columns.EncodeDecode | backend/handlers.go:808-816 | Encoding the value of any non-empty letter name gives that name back. |
| Columns.ColumnLetterBijective | backend/handlers.go:807-816 | Distinct positive columns get distinct names, and every non-empty letter name is some column's name. |
| Columns.SingleLetterColumns | backend/handlers.go:512 | Columns 1..26 are the single letters A..Z, which is what `'A' + i` computes for the header columns. |
| Columns.ColumnLetterExamples | backend/handlers.go:807 | 1 is A, 2 is B, 26 is Z, 27 is AA, 52 is AZ, 53 is BA, 702 is ZZ and 703 is AAA. 0 and −5 give "". |
| Gantt.GanttBar | backend/handlers.go:835-875 | No bar when either date is unset. Otherwise the bar keeps the colour and runs from a column ≥ 2 to a column no smaller. Within the grid, from and to are the day offsets plus 2. The bar starts at the start day's offset plus 2 when that day is on or after the project start, and in column B when it is before. An inverted range collapses to one cell, and a row wholly before the project start is a single cell in column B. |
| Gantt.BarCoversDays | backend/handlers.go:840-855 | For a non-inverted row ending on or after the project start, the bar covers the column of day d exactly when d lies in the row's range, clamped below at the project start. |
| Gantt.NoUpperClamp | backend/handlers.go:846-855 | Nothing clamps the end column. A row ending after the project end gets a bar past the header's last day. |
| Gantt.DateHeaderCells | backend/handlers.go:618-622 | Header cell k sits in column col0 + k and holds the short date of day start + k. |
| Gantt.WeekendFills | backend/handlers.go:624-634 | A header column gets the weekend fill exactly when its day is Saturday or Sunday. |
| Gantt.HeaderBarOffset | backend/handlers.go:610 | With the header starting at column 1, day d's header is one column left of its bar column. The header above a bar's first cell shows the next day, and a bar ending on the last day ends one column past the header. |
| Gantt.AlignedHeaderMatchesBars | backend/handlers.go:838-846 | With the header starting at column 2, a bar's first and last cells sit under its start and end dates. |
| Timeline.TaskRows | backend/handlers.go:530-543 | One entry per task, in stored order. |
| Timeline.StagePosStep | backend/handlers.go:517-544 | Stage i + 1 starts 1 + (tasks of stage i) rows after stage i. The first stage is at 0, and the last position is the total row count. |
| Timeline.WalkStageAt | backend/handlers.go:517-528 | The traversal has Σ(1 + tasks) rows, and stage i's row sits at StagePos(i). |
| Timeline.WalkTaskAt | backend/handlers.go:530-543 | Task j of stage i sits at StagePos(i) + 1 + j, directly under its stage in stored order. |
| Timeline.WalkLength | backend/handlers.go:517-544 | The traversal has exactly Σ(1 + tasks) rows. |
| Timeline.WalkPreserves | backend/handlers.go:517-544 | A property that holds of every stage row and task row holds of every traversal row. |
| Timeline.TaskEntries | backend/handlers.go:364-376 | One timeline entry per task, carrying that task's fields. |
| Timeline.GenerateTimeline | backend/handlers.go:348-380 | One entry per stage in stored order. Each entry carries the stage's fields and its tasks' entries in stored order. |
| Timeline.TimelineMatchesRows | backend/handlers.go:348-380 | Flattening the timeline's names gives exactly the sheet rows' order: each stage, then its tasks. |
| Timeline.TaskNamesMatch | backend/handlers.go:364-376 | A stage's task entries list the task names in stored order. |
| Cells.RowFrom | backend/handlers.go:519-526 | Consecutive values land in consecutive columns from the first one. |
| Cells.EmitRow | backend/handlers.go:519-526 | Writing a row keeps its cells' columns and order and puts them all on that row. |
| Cells.EmitRows | backend/handlers.go:516-544 | Writing consecutive rows from `row0` touches only rows `row0 .. row0 + count − 1`. |
| Sheets.BarFills | backend/handlers.go:640-656 | A fill is on the body exactly when it is row r's bar, from its first to its last column in its colour. |
| Sheets.ExportWorkbook | backend/handlers.go:492-750 | The workbook has four sheets named 甘特图, 甘特图数据, 甘特图时间线 and 团队成员信息. The file is named after the project with suffix `_甘特图.xlsx` and carries the spreadsheet MIME type. Its overview, data and roster sheets are exactly `OverviewSheet`, `DataSheet` and `RosterSheet`, so the `Layout` lemmas apply to them. Its timeline sheet is the corrected layout (see Findings). |
| Layout.OverviewTitleBlock | backend/handlers.go:497-507 | A1 holds the title. B2..B6 hold the project's name, description, start and end dates and status label. |
| Layout.OverviewHeaderCells | backend/handlers.go:509-514 | The eight table headers sit in C8..J8 in order, and nothing else is on row 8. |
| Layout.OverviewStageCells | backend/handlers.go:518-528 | Stage i's row is 9 + StagePos(i). It holds the name, both dates, the work-day count, the status label and the progress in C..H, and blank I and J. |
| Layout.OverviewTaskCells | backend/handlers.go:531-543 | Task j's row is under its stage. C holds the name indented by two spaces, and D..H hold the same fields as for stages. I holds the assignee's name exactly when the assignee id is positive, and J holds the priority label. |
| Layout.OverviewExtent | backend/handlers.go:516-544 | The table spans exactly Σ(1 + tasks) rows from row 9. Each row has a name in C, and nothing is written below. |
| Layout.DataHeaderCells | backend/handlers.go:550-555 | The ten headers sit in A1..J1, and nothing else is on row 1. |
| Layout.DataStageCells | backend/handlers.go:559-571 | Stage i's row 2 + StagePos(i) holds the project and stage names in A and B and a blank C. D..H hold the stage's start and end dates, work days, status label and progress, and I and J are blank. |
| Layout.DataTaskCells | backend/handlers.go:574-587 | Task j's row is under its stage. A..C hold the project, stage and unindented task names, and D..H hold the task's start and end dates, work days, status label and progress. I holds the assignee exactly when the id is positive, and J holds the priority label. |
| Layout.DataProjectColumn | backend/handlers.go:557-589 | Column A of every body row holds the project name, and nothing is written below the body. |
| Layout.RosterHeaderCells | backend/handlers.go:669-674 | The six roster headers sit in A1..F1 in order, and nothing else is on row 1. |
| Layout.RosterExtent | backend/handlers.go:676-690 | Nothing is written at or below row 2 + the member count, which covers an empty roster too. |
| Layout.RosterCells | backend/handlers.go:676-690 | Member k is on row 2 + k with name, role, email, avatar and join date in A..E, and 活跃/非活跃 by `isActive` in F. Nothing is written below the last member. |
| TimelineLayout.HeaderRow | backend/handlers.go:612-622 | Row 1 holds one short date per grid day starting at the header's first column. "任务/阶段" stays in A1 only where no date lands on it. |
| TimelineLayout.TimelineBody | backend/handlers.go:640-656 | Row 5 + k holds body row k, and rows past the body hold nothing. |
| TimelineLayout.TimelineStageRow | backend/handlers.go:642-648 | Stage i's row has the folder-marked name in A. A fill is on that row exactly when it is `drawGanttBar`'s bar for the stage's dates in its status colour. |
| TimelineLayout.TimelineTaskLabel | backend/handlers.go:650-655 | Task j's row, under its stage, has the page-marked name in A. |
| TimelineLayout.TimelineTaskBar | backend/handlers.go:650-655 | A fill is on task j's row exactly when it is the task's bar in its status colour. |
| TimelineLayout.WeekendMarks | backend/handlers.go:624-634 | The header cell of a grid day carries the weekend fill exactly when the day is Saturday or Sunday. |
| TimelineLayout.TimelineHeaderMisaligned | backend/handlers.go:610-622 | As written, A1's label is overwritten by the first date, a bar's first cell sits under the next day's date, and the last day's bar column has no date. |
| TimelineLayout.AlignedTimelineHeader | backend/handlers.go:838-846 | With the header starting at column B, A1 keeps its label, every day's date sits in its bar column, and a bar starts under its start date and ends under its end date. |
| Requests.CreateProject | backend/handlers.go:25-50 | Accepts exactly the projects with a name and both dates set, start not after end. Each rejection reason holds exactly when the earlier checks pass and its own fails. Only an empty status is changed, and then it becomes "active". |
| Requests.CreatedProjectHasGrid | backend/handlers.go:42-45 | An accepted project's timeline header has at least one date column. |
| Requests.UpdateStageSpec | backend/handlers.go:221-250 | The update fails exactly when name, description or status is present but not a string, reporting the first in list order. Otherwise each present field takes its value: dates only when they parse, progress only when it is a number. Every other field is kept. |
| Requests.UpdateStageWhitelist | backend/handlers.go:221-250 | Keys outside the six fields are ignored, and an empty body changes nothing. Id, project, order and tasks never change. A start or end date that is not a string, or that does not parse, keeps that date. A non-number progress keeps the progress. |
| Requests.UpdateTaskSpec | backend/handlers.go:416-447 | As for stages, with priority as a fourth string field checked after status. |
| Requests.UpdateTaskWhitelist | backend/handlers.go:416-447 | Keys outside the seven fields are ignored, and an empty body changes nothing. Id, stage, assignment and assignee never change. A start or end date that is not a string, or that does not parse, keeps that date. A non-number progress keeps the progress. |
| Scenario.DemoTimeline | backend/handlers.go:761-854 | For a project over 2024-01-01..10 the grid has 10 days and 8 workdays. An in-progress stage 01..05 gets columns 2..6 in FFB366, and a pending task 02..03 gets columns 3..4 in FFE6B3. |
| Scenario.DemoDataSheet | backend/handlers.go:557-589 | In that project's data sheet the stage row shows 5 work days, and the task row shows assignee Ana and priority 高. Every column of row 4 is empty. |
| Scenario.DemoOverview | backend/handlers.go:531 | In that project's overview the task name is indented in C10. |
| Scenario.UnsetEndDate | backend/handlers.go:835-837 | A task with no end date gets duration 0 and no bar. |

## Left out

- HTTP handling, request binding, GORM persistence and gin routing are not modelled. The project id parsing and not-found paths of the export are left out too, and so are the JSON responses. They are I/O around the modelled logic.
- The timestamps `createProject` sets with `time.Now()` are left out. They are clock reads.
- Styling is not modelled: fonts, borders, alignment, column widths, the A1:J1 merge and style creation errors. Only the fill colours are kept, as `Fill`s.
- Workbook serialisation and the write error path (`f.Write`) are not modelled.
- Percent and date text formatting are kept symbolic (`Percent`, `IsoDate`, `ShortDate`). The model proves which value lands in which cell, not how `FormatFloat` or `Format` render it.
- `Percent` holds a Dafny `real`. IEEE-754 rounding of float64 progress values is not modelled.
- `time.Parse` is a parameter. The model does not say which strings parse.
- Gantt.GanttBar: the offset is a whole day difference. Time-of-day parts, time zones, and the saturation of `time.Duration` for spans over about 292 years (which `Sub` clamps) are not modelled. Nor is the sheet's column cap: the spreadsheet library refuses columns past 16384 (XFD), and the source drops those errors (handlers.go:622, 633, 875), so header dates beyond XFD, and every bar whose range reaches past it, go unwritten there while the model writes them. This only matters for spans of about 44 years or more.
- Requests.UpdateStageSpec: a failed type assertion is an error value. The 500 response produced by gin's panic recovery is not modelled.
- Timeline.GenerateTimeline: Go returns a nil slice for a project without stages, and that serialises as JSON `null` rather than `[]`. The model does not distinguish the two.
- The unknown-field rule: keys outside the whitelists are ignored, as the code does (handlers.go:222-224, 417-419).
- The other CRUD handlers (`updateProject`, `createStage`, `createTask`, the team and role handlers, deletes and lists) are not part of this model, and neither is the frontend. They are plain persistence with no logic beyond what is modelled here.

## Findings

| source | as written | input that shows it | evidently intended | confidence | as-written member | corrected member |
|---|---|---|---|---|---|---|
| backend/handlers.go:610 | The timeline's date header starts at column 1 (A), while `drawGanttBar` puts day offset k in column k + 2 (B for the project start). | A project 2024-01-01..2024-01-10 with a task 2024-01-02..2024-01-03: the task's bar starts in column C, under the header "01/03". A1's "任务/阶段" is overwritten by "01/01", and the bar column of 01/10 (K) has no header. | The header starts at column B, as the comments at lines 610 and 840 say, so every bar sits under its own dates. | not executed; high | TimelineLayout.TimelineHeaderMisaligned | TimelineLayout.AlignedTimelineHeader |

`Sheets.TimelineSheet` is the sheet as written. `Sheets.AlignedTimelineSheet` is the corrected one, and it is the timeline sheet `Sheets.ExportWorkbook` assembles.
