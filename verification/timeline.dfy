/** Document order (`generateTimeline` and the row loops of the export):
    stages in stored order, each immediately followed by its own tasks in
    stored order. Nothing is sorted or filtered by date. */
module Timeline {
  import opened Dates
  import opened Models

  /** Rows produced for one stage's tasks, in stored order. */
  function TaskRows<R>(s: Stage, tasks: seq<Task>, taskRow: (Stage, Task) -> R): (rows: seq<R>)
    ensures |rows| == |tasks|
    ensures forall j :: 0 <= j < |tasks| ==> rows[j] == taskRow(s, tasks[j])
  {
    if tasks == [] then []
    else [taskRow(s, tasks[0])] + TaskRows(s, tasks[1..], taskRow)
  }

  /** The nested walk every sheet of the export performs: for each stage one
      stage row, then one row per task of that stage. */
  function Walk<R>(stages: seq<Stage>, stageRow: Stage -> R, taskRow: (Stage, Task) -> R): seq<R>
  {
    if stages == [] then []
    else [stageRow(stages[0])] + TaskRows(stages[0], stages[0].tasks, taskRow)
         + Walk(stages[1..], stageRow, taskRow)
  }

  /** Σ (1 + |tasks|): the number of rows a stage list occupies. */
  function RowCount(stages: seq<Stage>): nat
  {
    if stages == [] then 0 else 1 + |stages[0].tasks| + RowCount(stages[1..])
  }

  /** Zero-based row offset of stage i: the rows taken by the stages before it. */
  function StagePos(stages: seq<Stage>, i: nat): nat
    requires i <= |stages|
  {
    RowCount(stages[..i])
  }

  lemma {:induction false} RowCountAppend(stages: seq<Stage>, i: nat)
    requires i < |stages|
    ensures RowCount(stages[..i + 1]) == RowCount(stages[..i]) + 1 + |stages[i].tasks|
    decreases i
  {
    if i > 0 {
      assert stages[..i + 1][1..] == stages[1..][..i];
      assert stages[..i][1..] == stages[1..][..i - 1];
      RowCountAppend(stages[1..], i - 1);
    }
  }

  /** Stage positions are contiguous: after stage i and its tasks comes
      stage i + 1, and the last stage's tasks end the rows. */
  lemma StagePosStep(stages: seq<Stage>, i: nat)
    requires i < |stages|
    ensures StagePos(stages, i + 1) == StagePos(stages, i) + 1 + |stages[i].tasks|
    ensures StagePos(stages, 0) == 0
    ensures StagePos(stages, |stages|) == RowCount(stages)
  {
    RowCountAppend(stages, i);
    assert stages[..|stages|] == stages;
  }

  /** The walk yields exactly Σ(1 + |tasks|) rows, and the row of stage i
      sits at `StagePos(stages, i)`, whatever the stages' dates. */
  lemma {:induction false} WalkStageAt<R>(stages: seq<Stage>, stageRow: Stage -> R, taskRow: (Stage, Task) -> R, i: nat)
    requires i < |stages|
    ensures |Walk(stages, stageRow, taskRow)| == RowCount(stages)
    ensures StagePos(stages, i) < RowCount(stages)
    ensures Walk(stages, stageRow, taskRow)[StagePos(stages, i)] == stageRow(stages[i])
    decreases |stages|
  {
    var s0 := stages[0];
    var head := [stageRow(s0)] + TaskRows(s0, s0.tasks, taskRow);
    var rest := Walk(stages[1..], stageRow, taskRow);
    assert Walk(stages, stageRow, taskRow) == head + rest;
    WalkLength(stages[1..], stageRow, taskRow);
    if i == 0 {
      assert stages[..0] == [];
    } else {
      WalkStageAt(stages[1..], stageRow, taskRow, i - 1);
      assert stages[..i][1..] == stages[1..][..i - 1];
      assert StagePos(stages, i) == |head| + StagePos(stages[1..], i - 1);
    }
  }

  /** Task j of stage i sits immediately after its stage's row and its
      earlier siblings, at `StagePos(stages, i) + 1 + j`. */
  lemma {:induction false} WalkTaskAt<R>(stages: seq<Stage>, stageRow: Stage -> R, taskRow: (Stage, Task) -> R, i: nat, j: nat)
    requires i < |stages|
    requires j < |stages[i].tasks|
    ensures |Walk(stages, stageRow, taskRow)| == RowCount(stages)
    ensures StagePos(stages, i) + 1 + j < RowCount(stages)
    ensures Walk(stages, stageRow, taskRow)[StagePos(stages, i) + 1 + j] == taskRow(stages[i], stages[i].tasks[j])
    decreases |stages|
  {
    var s0 := stages[0];
    var head := [stageRow(s0)] + TaskRows(s0, s0.tasks, taskRow);
    var rest := Walk(stages[1..], stageRow, taskRow);
    assert Walk(stages, stageRow, taskRow) == head + rest;
    WalkLength(stages[1..], stageRow, taskRow);
    if i == 0 {
      assert stages[..0] == [];
    } else {
      WalkTaskAt(stages[1..], stageRow, taskRow, i - 1, j);
      assert stages[..i][1..] == stages[1..][..i - 1];
      assert StagePos(stages, i) == |head| + StagePos(stages[1..], i - 1);
    }
  }

  lemma {:induction false} WalkLength<R>(stages: seq<Stage>, stageRow: Stage -> R, taskRow: (Stage, Task) -> R)
    ensures |Walk(stages, stageRow, taskRow)| == RowCount(stages)
    decreases |stages|
  {
    if stages != [] {
      WalkLength(stages[1..], stageRow, taskRow);
    }
  }

  /** A property every stage row and every task row has holds of every row
      of the walk. */
  lemma {:induction false} WalkPreserves<R>(stages: seq<Stage>, stageRow: Stage -> R, taskRow: (Stage, Task) -> R, P: R -> bool)
    requires forall s :: s in stages ==> P(stageRow(s))
    requires forall s, t :: s in stages && t in s.tasks ==> P(taskRow(s, t))
    ensures forall k :: 0 <= k < |Walk(stages, stageRow, taskRow)| ==> P(Walk(stages, stageRow, taskRow)[k])
    decreases |stages|
  {
    if stages != [] {
      var s0 := stages[0];
      var head := [stageRow(s0)] + TaskRows(s0, s0.tasks, taskRow);
      var rest := Walk(stages[1..], stageRow, taskRow);
      assert Walk(stages, stageRow, taskRow) == head + rest;
      assert forall s :: s in stages[1..] ==> s in stages;
      WalkPreserves(stages[1..], stageRow, taskRow, P);
      assert forall k :: 0 <= k < |head| ==> P(head[k]) by {
        forall k | 0 <= k < |head|
          ensures P(head[k])
        {
          if k > 0 {
            assert head[k] == taskRow(s0, s0.tasks[k - 1]);
            assert s0.tasks[k - 1] in s0.tasks;
          }
        }
      }
    }
  }

  /** One entry of the `generateTimeline` result for a task. */
  datatype TimelineTask = TimelineTask(
    id: nat, name: string, startDate: Day, endDate: Day,
    progress: real, status: string, priority: string, assignee: TeamMember)

  /** One entry of the `generateTimeline` result for a stage, holding its tasks. */
  datatype TimelineStage = TimelineStage(
    id: nat, name: string, startDate: Day, endDate: Day,
    progress: real, status: string, tasks: seq<TimelineTask>)

  predicate TaskEntryOf(e: TimelineTask, t: Task)
  {
    && e.id == t.id && e.name == t.name
    && e.startDate == t.startDate && e.endDate == t.endDate
    && e.progress == t.progress && e.status == t.status
    && e.priority == t.priority && e.assignee == t.assignee
  }

  predicate StageEntryOf(e: TimelineStage, s: Stage)
  {
    && e.id == s.id && e.name == s.name
    && e.startDate == s.startDate && e.endDate == s.endDate
    && e.progress == s.progress && e.status == s.status
    && |e.tasks| == |s.tasks|
    && forall j :: 0 <= j < |s.tasks| ==> TaskEntryOf(e.tasks[j], s.tasks[j])
  }

  function TaskEntries(tasks: seq<Task>): (es: seq<TimelineTask>)
    ensures |es| == |tasks|
    ensures forall j :: 0 <= j < |tasks| ==> TaskEntryOf(es[j], tasks[j])
  {
    if tasks == [] then []
    else
      var t := tasks[0];
      [TimelineTask(t.id, t.name, t.startDate, t.endDate, t.progress, t.status, t.priority, t.assignee)]
      + TaskEntries(tasks[1..])
  }

  /** `generateTimeline`: exactly one entry per stage, in stored order, each
      holding exactly its own tasks in stored order. */
  function GenerateTimeline(stages: seq<Stage>): (tl: seq<TimelineStage>)
    ensures |tl| == |stages|
    ensures forall i :: 0 <= i < |stages| ==> StageEntryOf(tl[i], stages[i])
  {
    if stages == [] then []
    else
      var s := stages[0];
      [TimelineStage(s.id, s.name, s.startDate, s.endDate, s.progress, s.status, TaskEntries(s.tasks))]
      + GenerateTimeline(stages[1..])
  }

  /** Names of a timeline read top to bottom, each stage before its tasks. */
  function FlattenNames(tl: seq<TimelineStage>): seq<string>
  {
    if tl == [] then []
    else [tl[0].name] + TaskNames(tl[0].tasks) + FlattenNames(tl[1..])
  }

  function TaskNames(ts: seq<TimelineTask>): seq<string>
  {
    if ts == [] then [] else [ts[0].name] + TaskNames(ts[1..])
  }

  /** The JSON timeline read top to bottom lists the same names in the same
      order as the rows the export writes. */
  lemma {:induction false} TimelineMatchesRows(stages: seq<Stage>)
    ensures FlattenNames(GenerateTimeline(stages)) == Walk(stages, (s: Stage) => s.name, (s: Stage, t: Task) => t.name)
    decreases |stages|
  {
    if stages != [] {
      var s := stages[0];
      TaskNamesMatch(s, s.tasks);
      TimelineMatchesRows(stages[1..]);
      assert GenerateTimeline(stages)[1..] == GenerateTimeline(stages[1..]);
    }
  }

  lemma {:induction false} TaskNamesMatch(s: Stage, tasks: seq<Task>)
    ensures TaskNames(TaskEntries(tasks)) == TaskRows(s, tasks, (s: Stage, t: Task) => t.name)
    decreases |tasks|
  {
    if tasks != [] {
      TaskNamesMatch(s, tasks[1..]);
      assert TaskEntries(tasks)[1..] == TaskEntries(tasks[1..]);
    }
  }
}
