/** A worked export: a project over 2024-01-01..2024-01-10 with one stage
    (2024-01-01..2024-01-05, in progress) holding one high-priority task
    (2024-01-02..2024-01-03) assigned to a member named "Ana". */
module Scenario {
  import opened Results
  import opened Dates
  import opened Models
  import opened Labels
  import opened Workdays
  import opened Cells
  import opened Timeline
  import opened Gantt
  import opened Sheets
  import opened Layout

  /** 2024-01-01, a Monday. */
  const Jan1: Day := 738885

  const Ana := TeamMember(7, 1, "Ana", "ana@example.com", "frontend", "", true, Jan1)
  const Design := Task(11, 5, "Design", "", Jan1 + 1, Jan1 + 2, "pending", "high", 0.0, 7, Ana)
  const Phase := Stage(5, 1, "Phase 1", "", Jan1, Jan1 + 4, "in_progress", 0, 50.0, [Design])
  const Demo := Project(1, "Demo", "", Jan1, Jan1 + 9, "active", [Phase], [Ana])

  /** The date grid, the working days and the bars of the demo project. */
  lemma DemoTimeline()
    ensures |DateGrid(Demo.startDate, Demo.endDate)| == 10
    ensures WorkDays(Demo.startDate, Demo.endDate) == 8
    ensures GanttBar(Phase.startDate, Phase.endDate, Demo.startDate, StatusColor(Phase.status)) == Some(Bar(2, 6, "FFB366"))
    ensures GanttBar(Design.startDate, Design.endDate, Demo.startDate, StatusColor(Design.status)) == Some(Bar(3, 4, "FFE6B3"))
  {
    January2024();
  }

  /** The demo's data sheet: the stage row's duration, the task row's
      assignee and priority, and nothing after the two body rows. */
  lemma DemoDataSheet(col: int)
    ensures RowCount(Demo.stages) == 2
    ensures Lookup(DataSheet(Demo).writes, 6, 2) == Some(Int(5))
    ensures Lookup(DataSheet(Demo).writes, 9, 3) == Some(Text("Ana"))
    ensures Lookup(DataSheet(Demo).writes, 10, 3) == Some(Text("高"))
    ensures Lookup(DataSheet(Demo).writes, col, 4) == None
  {
    January2024();
    assert Demo.stages[..0] == [];
    DataStageCells(Demo, 0);
    DataTaskCells(Demo, 0, 0);
    DataProjectColumn(Demo, col, 4);
  }

  /** The demo's overview indents the task name in column C of row 10. */
  lemma DemoOverview()
    ensures Lookup(OverviewSheet(Demo).writes, 3, 10) == Some(Text("  Design"))
  {
    assert Demo.stages[..0] == [];
    OverviewTaskCells(Demo, 0, 0);
    assert TaskIndent + Design.name == "  Design";
  }

  /** A task whose end date is unset keeps its row but gets duration 0 and
      no bar. */
  lemma UnsetEndDate(t: Task, projectStart: Day)
    requires IsUnset(t.endDate)
    ensures WorkDays(t.startDate, t.endDate) == 0
    ensures GanttBar(t.startDate, t.endDate, projectStart, StatusColor(t.status)) == None
  {
  }
}
