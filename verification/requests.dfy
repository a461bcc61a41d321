/** The validation of `createProject` and the whitelisted partial updates of
    `updateStage` and `updateTask`. Request decoding, persistence and the
    HTTP responses are not modelled; `time.Parse` with the "2006-01-02"
    layout is the parameter `parse`. */
module Requests {
  import opened Results
  import opened Dates
  import opened Models

  // ------------------------------------------------------------ createProject

  datatype CreateError = EmptyName | MissingStartDate | MissingEndDate | StartAfterEnd

  /** Status given to a project created with an empty status. */
  const DefaultProjectStatus := "active"

  /** A project the export can lay out: named, both dates set, not inverted. */
  predicate ValidProject(p: Project)
  {
    p.name != "" && !IsUnset(p.startDate) && !IsUnset(p.endDate) && p.startDate <= p.endDate
  }

  /** Checks the bound request in the source's order and fills in the
      default status. */
  function CreateProject(req: Project): (r: Result<Project, CreateError>)
    ensures r.Ok? <==> ValidProject(req)
    ensures r == Err(EmptyName) <==> req.name == ""
    ensures r == Err(MissingStartDate) <==> req.name != "" && IsUnset(req.startDate)
    ensures r == Err(MissingEndDate) <==> req.name != "" && !IsUnset(req.startDate) && IsUnset(req.endDate)
    ensures r == Err(StartAfterEnd) <==>
      req.name != "" && !IsUnset(req.startDate) && !IsUnset(req.endDate) && req.startDate > req.endDate
    ensures r.Ok? ==> ValidProject(r.value) && r.value.status != ""
    ensures r.Ok? ==> r.value.(status := req.status) == req
    ensures r.Ok? && req.status != "" ==> r.value == req
    ensures r.Ok? && req.status == "" ==> r.value.status == DefaultProjectStatus
  {
    if req.name == "" then Err(EmptyName)
    else if IsUnset(req.startDate) then Err(MissingStartDate)
    else if IsUnset(req.endDate) then Err(MissingEndDate)
    else if req.startDate > req.endDate then Err(StartAfterEnd)
    else if req.status == "" then Ok(req.(status := DefaultProjectStatus))
    else Ok(req)
  }

  /** A created project's timeline header has at least one date column. */
  lemma CreatedProjectHasGrid(req: Project)
    requires CreateProject(req).Ok?
    ensures |DateGrid(CreateProject(req).value.startDate, CreateProject(req).value.endDate)| >= 1
  {
  }

  // ------------------------------------------------------------ partial updates

  /** A decoded JSON value of an update body (`map[string]interface{}`). */
  datatype JsonValue = JString(s: string) | JNumber(n: real) | JBool(b: bool) | JNull | JComposite

  /** A failed `value.(string)` type assertion: the handler panics and the
      record is not saved. */
  datatype UpdateError = TypeAssertion(field: string)

  const StageFields: seq<string> := ["name", "description", "start_date", "end_date", "status", "progress"]
  const TaskFields: seq<string> := ["name", "description", "start_date", "end_date", "status", "priority", "progress"]

  /** The value a string field gets (the request's string when present). */
  function StringOr(data: map<string, JsonValue>, key: string, current: string): string
  {
    if key in data && data[key].JString? then data[key].s else current
  }

  /** A string field whose key is present holds a string. */
  predicate StringOk(data: map<string, JsonValue>, key: string)
  {
    key !in data || data[key].JString?
  }

  /** The value a date field gets: the parsed date when the key holds a
      string `parse` accepts, the current date otherwise. */
  function DateOr(data: map<string, JsonValue>, key: string, current: Day, parse: string -> Option<Day>): Day
  {
    if key in data && data[key].JString? && parse(data[key].s).Some? then parse(data[key].s).value else current
  }

  /** The value `progress` gets: the number when the key holds one. */
  function NumberOr(data: map<string, JsonValue>, key: string, current: real): real
  {
    if key in data && data[key].JNumber? then data[key].n else current
  }

  // ---- updateStage

  function ApplyStageField(s: Stage, field: string, v: JsonValue, parse: string -> Option<Day>): Result<Stage, UpdateError>
  {
    match field
    case "name" => if v.JString? then Ok(s.(name := v.s)) else Err(TypeAssertion(field))
    case "description" => if v.JString? then Ok(s.(description := v.s)) else Err(TypeAssertion(field))
    case "start_date" => if v.JString? && parse(v.s).Some? then Ok(s.(startDate := parse(v.s).value)) else Ok(s)
    case "end_date" => if v.JString? && parse(v.s).Some? then Ok(s.(endDate := parse(v.s).value)) else Ok(s)
    case "status" => if v.JString? then Ok(s.(status := v.s)) else Err(TypeAssertion(field))
    case "progress" => if v.JNumber? then Ok(s.(progress := v.n)) else Ok(s)
    case _ => Ok(s)
  }

  /** The source's loop over the whitelist: each listed key present in the
      body is applied in list order; the first failed assertion aborts. */
  function ApplyStageFields(s: Stage, fields: seq<string>, data: map<string, JsonValue>, parse: string -> Option<Day>): Result<Stage, UpdateError>
    decreases |fields|
  {
    if fields == [] then Ok(s)
    else if fields[0] !in data then ApplyStageFields(s, fields[1..], data, parse)
    else match ApplyStageField(s, fields[0], data[fields[0]], parse)
      case Err(e) => Err(e)
      case Ok(s') => ApplyStageFields(s', fields[1..], data, parse)
  }

  function UpdateStage(s: Stage, data: map<string, JsonValue>, parse: string -> Option<Day>): Result<Stage, UpdateError>
  {
    ApplyStageFields(s, StageFields, data, parse)
  }

  /** Field-by-field meaning of a stage update: it fails exactly when name,
      description or status is present but not a string (reporting the
      first of them in whitelist order); otherwise each whitelisted field
      takes its new value, dates only when they parse and progress only
      when it is a number, and every other field of the stage is kept. */
  lemma UpdateStageSpec(s: Stage, data: map<string, JsonValue>, parse: string -> Option<Day>)
    ensures UpdateStage(s, data, parse) ==
      if !StringOk(data, "name") then Err(TypeAssertion("name"))
      else if !StringOk(data, "description") then Err(TypeAssertion("description"))
      else if !StringOk(data, "status") then Err(TypeAssertion("status"))
      else Ok(s.(name := StringOr(data, "name", s.name),
                 description := StringOr(data, "description", s.description),
                 startDate := DateOr(data, "start_date", s.startDate, parse),
                 endDate := DateOr(data, "end_date", s.endDate, parse),
                 status := StringOr(data, "status", s.status),
                 progress := NumberOr(data, "progress", s.progress)))
  {
    var fs := StageFields;
    assert fs[1..][1..][1..][1..][1..][1..] == [];
    var s1 := s.(name := StringOr(data, "name", s.name));
    var s2 := s1.(description := StringOr(data, "description", s.description));
    var s3 := s2.(startDate := DateOr(data, "start_date", s.startDate, parse));
    var s4 := s3.(endDate := DateOr(data, "end_date", s.endDate, parse));
    var s5 := s4.(status := StringOr(data, "status", s.status));
    var s6 := s5.(progress := NumberOr(data, "progress", s.progress));
    if StringOk(data, "name") && StringOk(data, "description") && StringOk(data, "status") {
      assert ApplyStageFields(s5, fs[1..][1..][1..][1..][1..], data, parse) == Ok(s6);
      assert ApplyStageFields(s4, fs[1..][1..][1..][1..], data, parse) == Ok(s6);
      assert ApplyStageFields(s3, fs[1..][1..][1..], data, parse) == Ok(s6);
      assert ApplyStageFields(s2, fs[1..][1..], data, parse) == Ok(s6);
      assert ApplyStageFields(s1, fs[1..], data, parse) == Ok(s6);
    } else if StringOk(data, "name") && StringOk(data, "description") {
      assert ApplyStageFields(s4, fs[1..][1..][1..][1..], data, parse) == Err(TypeAssertion("status"));
      assert ApplyStageFields(s3, fs[1..][1..][1..], data, parse) == Err(TypeAssertion("status"));
      assert ApplyStageFields(s2, fs[1..][1..], data, parse) == Err(TypeAssertion("status"));
      assert ApplyStageFields(s1, fs[1..], data, parse) == Err(TypeAssertion("status"));
    } else if StringOk(data, "name") {
      assert ApplyStageFields(s1, fs[1..], data, parse) == Err(TypeAssertion("description"));
    }
  }

  /** Keys outside the whitelist are ignored; the stage's identity, project,
      order and tasks never change; a date that is not a string or
      does not parse, or a non-number progress, leaves that field as it
      was. */
  lemma UpdateStageWhitelist(s: Stage, data: map<string, JsonValue>, parse: string -> Option<Day>, key: string, v: JsonValue)
    requires key !in StageFields
    ensures UpdateStage(s, data[key := v], parse) == UpdateStage(s, data, parse)
    ensures UpdateStage(s, map[], parse) == Ok(s)
    ensures UpdateStage(s, data, parse).Ok? ==>
      var s' := UpdateStage(s, data, parse).value;
      && s'.id == s.id && s'.projectId == s.projectId && s'.order == s.order && s'.tasks == s.tasks
      && ("start_date" in data && !(data["start_date"].JString? && parse(data["start_date"].s).Some?) ==> s'.startDate == s.startDate)
      && ("end_date" in data && !(data["end_date"].JString? && parse(data["end_date"].s).Some?) ==> s'.endDate == s.endDate)
      && ("progress" in data && !data["progress"].JNumber? ==> s'.progress == s.progress)
  {
    UpdateStageSpec(s, data[key := v], parse);
    UpdateStageSpec(s, data, parse);
    UpdateStageSpec(s, map[], parse);
  }

  // ---- updateTask

  function ApplyTaskField(t: Task, field: string, v: JsonValue, parse: string -> Option<Day>): Result<Task, UpdateError>
  {
    match field
    case "name" => if v.JString? then Ok(t.(name := v.s)) else Err(TypeAssertion(field))
    case "description" => if v.JString? then Ok(t.(description := v.s)) else Err(TypeAssertion(field))
    case "start_date" => if v.JString? && parse(v.s).Some? then Ok(t.(startDate := parse(v.s).value)) else Ok(t)
    case "end_date" => if v.JString? && parse(v.s).Some? then Ok(t.(endDate := parse(v.s).value)) else Ok(t)
    case "status" => if v.JString? then Ok(t.(status := v.s)) else Err(TypeAssertion(field))
    case "priority" => if v.JString? then Ok(t.(priority := v.s)) else Err(TypeAssertion(field))
    case "progress" => if v.JNumber? then Ok(t.(progress := v.n)) else Ok(t)
    case _ => Ok(t)
  }

  function ApplyTaskFields(t: Task, fields: seq<string>, data: map<string, JsonValue>, parse: string -> Option<Day>): Result<Task, UpdateError>
    decreases |fields|
  {
    if fields == [] then Ok(t)
    else if fields[0] !in data then ApplyTaskFields(t, fields[1..], data, parse)
    else match ApplyTaskField(t, fields[0], data[fields[0]], parse)
      case Err(e) => Err(e)
      case Ok(t') => ApplyTaskFields(t', fields[1..], data, parse)
  }

  function UpdateTask(t: Task, data: map<string, JsonValue>, parse: string -> Option<Day>): Result<Task, UpdateError>
  {
    ApplyTaskFields(t, TaskFields, data, parse)
  }

  /** Field-by-field meaning of a task update, as for stages with priority
      as a fourth string field checked after status. */
  lemma UpdateTaskSpec(t: Task, data: map<string, JsonValue>, parse: string -> Option<Day>)
    ensures UpdateTask(t, data, parse) ==
      if !StringOk(data, "name") then Err(TypeAssertion("name"))
      else if !StringOk(data, "description") then Err(TypeAssertion("description"))
      else if !StringOk(data, "status") then Err(TypeAssertion("status"))
      else if !StringOk(data, "priority") then Err(TypeAssertion("priority"))
      else Ok(t.(name := StringOr(data, "name", t.name),
                 description := StringOr(data, "description", t.description),
                 startDate := DateOr(data, "start_date", t.startDate, parse),
                 endDate := DateOr(data, "end_date", t.endDate, parse),
                 status := StringOr(data, "status", t.status),
                 priority := StringOr(data, "priority", t.priority),
                 progress := NumberOr(data, "progress", t.progress)))
  {
    var fs := TaskFields;
    assert fs[1..][1..][1..][1..][1..][1..][1..] == [];
    var t1 := t.(name := StringOr(data, "name", t.name));
    var t2 := t1.(description := StringOr(data, "description", t.description));
    var t3 := t2.(startDate := DateOr(data, "start_date", t.startDate, parse));
    var t4 := t3.(endDate := DateOr(data, "end_date", t.endDate, parse));
    var t5 := t4.(status := StringOr(data, "status", t.status));
    var t6 := t5.(priority := StringOr(data, "priority", t.priority));
    var t7 := t6.(progress := NumberOr(data, "progress", t.progress));
    if StringOk(data, "name") && StringOk(data, "description") && StringOk(data, "status") && StringOk(data, "priority") {
      assert ApplyTaskFields(t6, fs[1..][1..][1..][1..][1..][1..], data, parse) == Ok(t7);
      assert ApplyTaskFields(t5, fs[1..][1..][1..][1..][1..], data, parse) == Ok(t7);
      assert ApplyTaskFields(t4, fs[1..][1..][1..][1..], data, parse) == Ok(t7);
      assert ApplyTaskFields(t3, fs[1..][1..][1..], data, parse) == Ok(t7);
      assert ApplyTaskFields(t2, fs[1..][1..], data, parse) == Ok(t7);
      assert ApplyTaskFields(t1, fs[1..], data, parse) == Ok(t7);
    } else if StringOk(data, "name") && StringOk(data, "description") && StringOk(data, "status") {
      assert ApplyTaskFields(t5, fs[1..][1..][1..][1..][1..], data, parse) == Err(TypeAssertion("priority"));
      assert ApplyTaskFields(t4, fs[1..][1..][1..][1..], data, parse) == Err(TypeAssertion("priority"));
      assert ApplyTaskFields(t3, fs[1..][1..][1..], data, parse) == Err(TypeAssertion("priority"));
      assert ApplyTaskFields(t2, fs[1..][1..], data, parse) == Err(TypeAssertion("priority"));
      assert ApplyTaskFields(t1, fs[1..], data, parse) == Err(TypeAssertion("priority"));
    } else if StringOk(data, "name") && StringOk(data, "description") {
      assert ApplyTaskFields(t4, fs[1..][1..][1..][1..], data, parse) == Err(TypeAssertion("status"));
      assert ApplyTaskFields(t3, fs[1..][1..][1..], data, parse) == Err(TypeAssertion("status"));
      assert ApplyTaskFields(t2, fs[1..][1..], data, parse) == Err(TypeAssertion("status"));
      assert ApplyTaskFields(t1, fs[1..], data, parse) == Err(TypeAssertion("status"));
    } else if StringOk(data, "name") {
      assert ApplyTaskFields(t1, fs[1..], data, parse) == Err(TypeAssertion("description"));
    }
  }

  /** Keys outside the whitelist are ignored; identity, stage, assignment
      and assignee never change; a date that is not a string or
      does not parse, or a non-number progress, leaves that field as it
      was. */
  lemma UpdateTaskWhitelist(t: Task, data: map<string, JsonValue>, parse: string -> Option<Day>, key: string, v: JsonValue)
    requires key !in TaskFields
    ensures UpdateTask(t, data[key := v], parse) == UpdateTask(t, data, parse)
    ensures UpdateTask(t, map[], parse) == Ok(t)
    ensures UpdateTask(t, data, parse).Ok? ==>
      var t' := UpdateTask(t, data, parse).value;
      && t'.id == t.id && t'.stageId == t.stageId && t'.assignedTo == t.assignedTo && t'.assignee == t.assignee
      && ("start_date" in data && !(data["start_date"].JString? && parse(data["start_date"].s).Some?) ==> t'.startDate == t.startDate)
      && ("end_date" in data && !(data["end_date"].JString? && parse(data["end_date"].s).Some?) ==> t'.endDate == t.endDate)
      && ("progress" in data && !data["progress"].JNumber? ==> t'.progress == t.progress)
  {
    UpdateTaskSpec(t, data[key := v], parse);
    UpdateTaskSpec(t, data, parse);
    UpdateTaskSpec(t, map[], parse);
  }
}
