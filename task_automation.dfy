/** The task executor and routine runner. A task is a registered function with a list of
    required parameters; a routine is a list of task launches. Launching a task records it
    as running; the worker thread that runs the task function is the separate `Complete`
    step, whose outcome (the function's return value or the exception it raised) is a
    parameter. `time.time()` is the parameter `now` (whole seconds for an id, the history
    timestamp as given). */
module Tasks {
  import opened Values
  import opened Text
  import opened Seqs

  /** `max_history`. */
  const MaxHistory: nat := 100

  /** The identity of a task function; what it does is external. */
  type TaskFunction = nat

  datatype TaskDef = TaskDef(name: string, description: string, parameters: seq<string>, handler: TaskFunction)

  /** One entry of a routine's `tasks` list: `{"task": ..., "params": ...}`. */
  datatype Step = Step(task: string, params: map<string, Value>)

  datatype Routine = Routine(name: string, description: string, steps: seq<Step>)

  datatype Status = Running | Completed | Failed

  /** A `running_tasks` record; `result` and `error` are absent until the task completes. */
  datatype TaskRecord = TaskRecord(name: string, params: map<string, Value>, status: Status,
                                   result: Option<Value>, error: Option<string>)

  datatype HistoryEntry = HistoryEntry(taskId: string, name: string, params: map<string, Value>,
                                       result: Value, timestamp: int)

  /** The dictionary `execute_task` returns. */
  datatype LaunchResult = Started(taskId: string) | TaskNotFound | MissingParameter(param: string)
  {
    function Reply(taskName: string): Value
    {
      match this
      case Started(id) =>
        VObj(map["success" := VBool(true), "message" := VStr("Task '" + taskName + "' started"), "task_id" := VStr(id)])
      case TaskNotFound =>
        VObj(map["success" := VBool(false), "message" := VStr("Task '" + taskName + "' not found")])
      case MissingParameter(p) =>
        VObj(map["success" := VBool(false), "message" := VStr("Missing required parameter: " + p)])
    }
  }

  /** The dictionary `execute_routine` returns. */
  datatype RoutineResult = RoutineNotFound | RoutineRan(results: seq<LaunchResult>)

  /** `get_task_status`: the stored record, or a not-found reply. */
  datatype StatusReply = Record(record: TaskRecord) | StatusNotFound(message: string)

  /** `f"{task_name}_{int(time.time())}"`. Two launches of one task within the same second
      get the same id. */
  function TaskId(name: string, now: int): string
  {
    name + "_" + IntToString(now)
  }

  /** The five predefined tasks. */
  function DefaultTasks(): map<string, TaskDef>
  {
    map[
      "turn_on_lights" := TaskDef("Turn on lights", "Turn on the lights in a specified room", ["room"], 0),
      "turn_off_lights" := TaskDef("Turn off lights", "Turn off the lights in a specified room", ["room"], 1),
      "set_reminder" := TaskDef("Set reminder", "Set a reminder for a specific time", ["message", "time"], 2),
      "check_weather" := TaskDef("Check weather", "Check the weather for a location", ["location"], 3),
      "play_music" := TaskDef("Play music", "Play music from a specified source", ["genre", "source"], 4)
    ]
  }

  /** The three predefined routines. */
  function DefaultRoutines(): map<string, Routine>
  {
    map[
      "morning" := Routine("Morning Routine", "Tasks to run in the morning", [
        Step("turn_on_lights", map["room" := VStr("bedroom")]),
        Step("check_weather", map["location" := VStr("current")]),
        Step("play_music", map["genre" := VStr("upbeat"), "source" := VStr("spotify")])]),
      "evening" := Routine("Evening Routine", "Tasks to run in the evening", [
        Step("turn_on_lights", map["room" := VStr("living room")]),
        Step("play_music", map["genre" := VStr("relaxing"), "source" := VStr("spotify")])]),
      "bedtime" := Routine("Bedtime Routine", "Tasks to run before bed", [
        Step("turn_off_lights", map["room" := VStr("all")]),
        Step("set_reminder", map["message" := VStr("Wake up"), "time" := VStr("08:00")])])
    ]
  }

  /** The first required parameter, in declared order, that `params` lacks. */
  function FirstMissing(required: seq<string>, params: map<string, Value>): (r: Option<string>)
    ensures r.None? <==> forall i :: 0 <= i < |required| ==> required[i] in params
    ensures r.Some? ==> exists i :: 0 <= i < |required| && required[i] == r.value && r.value !in params &&
                                    forall j :: 0 <= j < i ==> required[j] in params
  {
    if required == [] then None
    else if required[0] !in params then Some(required[0])
    else
      var rest := FirstMissing(required[1..], params);
      assert rest.Some? ==> exists i :: 1 <= i < |required| && required[i] == rest.value &&
                                        forall j :: 0 <= j < i ==> required[j] in params by {
        if rest.Some? {
          var k :| 0 <= k < |required[1..]| && required[1..][k] == rest.value && rest.value !in params &&
                   forall j :: 0 <= j < k ==> required[1..][j] in params;
          assert forall j :: 0 <= j < k + 1 ==> required[j] in params by {
            forall j | 0 <= j < k + 1 ensures required[j] in params {
              if j > 0 { assert required[j] == required[1..][j - 1]; }
            }
          }
        }
      }
      assert rest.None? ==> forall i :: 0 <= i < |required| ==> required[i] in params by {
        if rest.None? {
          forall i | 0 <= i < |required| ensures required[i] in params {
            if i > 0 { assert required[i] == required[1..][i - 1]; }
          }
        }
      }
      rest
  }

  /** What `execute_task` reports. It does not depend on what is already running. Extra
      parameters are allowed. */
  function Decide(tasks: map<string, TaskDef>, name: string, params: map<string, Value>, now: int): (r: LaunchResult)
    ensures r == TaskNotFound <==> name !in tasks
    ensures r.MissingParameter? <==> name in tasks && exists p :: p in tasks[name].parameters && p !in params
    ensures r.MissingParameter? ==> r.param in tasks[name].parameters && r.param !in params
    ensures r.Started? <==> name in tasks && forall p :: p in tasks[name].parameters ==> p in params
    ensures r.Started? ==> r.taskId == TaskId(name, now)
  {
    if name !in tasks then TaskNotFound
    else match FirstMissing(tasks[name].parameters, params)
      case Some(p) => MissingParameter(p)
      case None => Started(TaskId(name, now))
  }

  /** `running_tasks` after a launch: a started task is recorded as running under its id,
      overwriting any record with that id; an unsuccessful launch records nothing. */
  function Launched(running: map<string, TaskRecord>, name: string, params: map<string, Value>, r: LaunchResult): map<string, TaskRecord>
  {
    if r.Started? then running[r.taskId := TaskRecord(name, params, Running, None, None)] else running
  }

  /** `running_tasks` after launching every step of a routine in order, step `i` at the
      time `times[i]` that its own `execute_task` reads from the clock. */
  function LaunchAll(tasks: map<string, TaskDef>, running: map<string, TaskRecord>, steps: seq<Step>, times: seq<int>): map<string, TaskRecord>
    requires |times| == |steps|
    decreases |steps|
  {
    if steps == [] then running
    else
      var k := |steps| - 1;
      Launched(LaunchAll(tasks, running, steps[..k], times[..k]), steps[k].task, steps[k].params,
               Decide(tasks, steps[k].task, steps[k].params, times[k]))
  }

  /** The ids the steps of a routine start, step `i` at `times[i]`. */
  function StartedIds(tasks: map<string, TaskDef>, steps: seq<Step>, times: seq<int>): set<string>
    requires |times| == |steps|
    decreases |steps|
  {
    if steps == [] then {}
    else
      var k := |steps| - 1;
      var r := Decide(tasks, steps[k].task, steps[k].params, times[k]);
      StartedIds(tasks, steps[..k], times[..k]) + (if r.Started? then {r.taskId} else {})
  }

  /** Every id a routine starts is started by one of its steps. */
  lemma {:induction false} StartedIdsSound(tasks: map<string, TaskDef>, steps: seq<Step>, times: seq<int>, id: string)
    requires |times| == |steps| && id in StartedIds(tasks, steps, times)
    ensures exists i :: 0 <= i < |steps| && Decide(tasks, steps[i].task, steps[i].params, times[i]) == Started(id)
    decreases |steps|
  {
    var k := |steps| - 1;
    if id in StartedIds(tasks, steps[..k], times[..k]) {
      StartedIdsSound(tasks, steps[..k], times[..k], id);
      var i :| 0 <= i < k && Decide(tasks, steps[..k][i].task, steps[..k][i].params, times[..k][i]) == Started(id);
      assert steps[i] == steps[..k][i] && times[i] == times[..k][i];
    } else {
      assert Decide(tasks, steps[k].task, steps[k].params, times[k]) == Started(id);
    }
  }

  /** Every id a step of a routine starts is among the ids the routine starts. */
  lemma {:induction false} StartedIdsComplete(tasks: map<string, TaskDef>, steps: seq<Step>, times: seq<int>, i: int, id: string)
    requires |times| == |steps| && 0 <= i < |steps| && Decide(tasks, steps[i].task, steps[i].params, times[i]) == Started(id)
    ensures id in StartedIds(tasks, steps, times)
    decreases |steps|
  {
    var k := |steps| - 1;
    if i < k {
      assert steps[..k][i] == steps[i] && times[..k][i] == times[i];
      StartedIdsComplete(tasks, steps[..k], times[..k], i, id);
    }
  }

  /** An id is started by a routine exactly when one of its steps starts it. */
  lemma StartedIdsIff(tasks: map<string, TaskDef>, steps: seq<Step>, times: seq<int>, id: string)
    requires |times| == |steps|
    ensures id in StartedIds(tasks, steps, times) <==>
      exists i :: 0 <= i < |steps| && Decide(tasks, steps[i].task, steps[i].params, times[i]) == Started(id)
  {
    if id in StartedIds(tasks, steps, times) {
      StartedIdsSound(tasks, steps, times, id);
    }
    if exists i :: 0 <= i < |steps| && Decide(tasks, steps[i].task, steps[i].params, times[i]) == Started(id) {
      var i :| 0 <= i < |steps| && Decide(tasks, steps[i].task, steps[i].params, times[i]) == Started(id);
      StartedIdsComplete(tasks, steps, times, i, id);
    }
  }

  /** A routine adds a running record for exactly the ids its steps start, and changes no
      other record. */
  lemma {:induction false} LaunchAllRecords(tasks: map<string, TaskDef>, running: map<string, TaskRecord>, steps: seq<Step>, times: seq<int>)
    requires |times| == |steps|
    ensures var running' := LaunchAll(tasks, running, steps, times);
      && running'.Keys == running.Keys + StartedIds(tasks, steps, times)
      && (forall id :: id in running && id !in StartedIds(tasks, steps, times) ==> running'[id] == running[id])
      && (forall id :: id in StartedIds(tasks, steps, times) ==> running'[id].status == Running)
    decreases |steps|
  {
    if steps != [] {
      var k := |steps| - 1;
      LaunchAllRecords(tasks, running, steps[..k], times[..k]);
    }
  }

  /** Every step of every predefined routine names a predefined task and supplies all of
      its required parameters, so on the predefined tasks every step starts. */
  lemma DefaultRoutinesStart(now: int)
    ensures forall name, i :: name in DefaultRoutines() && 0 <= i < |DefaultRoutines()[name].steps| ==>
      Decide(DefaultTasks(), DefaultRoutines()[name].steps[i].task, DefaultRoutines()[name].steps[i].params, now).Started?
  {
  }

  class TaskAutomation {
    var tasks: map<string, TaskDef>
    var routines: map<string, Routine>
    var runningTasks: map<string, TaskRecord>
    var taskHistory: seq<HistoryEntry>

    ghost predicate Valid()
      reads this
    {
      |taskHistory| <= MaxHistory
    }

    /** The predefined tasks and routines, nothing running and an empty history. */
    constructor ()
      ensures Valid()
      ensures tasks == DefaultTasks() && routines == DefaultRoutines()
      ensures runningTasks == map[] && taskHistory == []
    {
      tasks := DefaultTasks();
      routines := DefaultRoutines();
      runningTasks := map[];
      taskHistory := [];
    }

    /** `execute_task`: unknown tasks and missing parameters are reported without recording
        anything; otherwise the task is recorded as running and its id returned. */
    method ExecuteTask(name: string, params: map<string, Value>, now: int) returns (r: LaunchResult)
      modifies this`runningTasks
      ensures r == Decide(tasks, name, params, now)
      ensures runningTasks == Launched(old(runningTasks), name, params, r)
    {
      if name !in tasks {
        return TaskNotFound;
      }
      var required := tasks[name].parameters;
      var i := 0;
      while i < |required|
        invariant 0 <= i <= |required|
        invariant forall j :: 0 <= j < i ==> required[j] in params
      {
        if required[i] !in params {
          return MissingParameter(required[i]);
        }
        i := i + 1;
      }
      var id := TaskId(name, now);
      runningTasks := runningTasks[id := TaskRecord(name, params, Running, None, None)];
      r := Started(id);
    }

    /** `_execute_task_thread`: a returned value completes the record and is appended to the
        bounded history; a raised exception fails the record and adds no history entry. */
    method Complete(taskId: string, params: map<string, Value>, outcome: Outcome, at: int)
      requires Valid() && taskId in runningTasks
      modifies this`runningTasks, this`taskHistory
      ensures Valid()
      ensures outcome.Returned? ==>
        && runningTasks == old(runningTasks)[taskId := old(runningTasks)[taskId].(status := Completed, result := Some(outcome.value))]
        && taskHistory == Trimmed(old(taskHistory) + [HistoryEntry(taskId, old(runningTasks)[taskId].name, params, outcome.value, at)],
                                  MaxHistory)
      ensures outcome.Raised? ==>
        && runningTasks == old(runningTasks)[taskId := old(runningTasks)[taskId].(status := Failed, error := Some(outcome.message))]
        && taskHistory == old(taskHistory)
    {
      var record := runningTasks[taskId];
      match outcome
      case Returned(v) =>
        runningTasks := runningTasks[taskId := record.(status := Completed, result := Some(v))];
        var entry := HistoryEntry(taskId, record.name, params, v, at);
        AppendTrimmed(taskHistory, entry, MaxHistory);
        taskHistory := taskHistory + [entry];
        if |taskHistory| > MaxHistory {
          taskHistory := taskHistory[|taskHistory| - MaxHistory..];
        }
      case Raised(e) =>
        runningTasks := runningTasks[taskId := record.(status := Failed, error := Some(e))];
    }

    /** `execute_routine`: an unknown routine launches nothing; otherwise every step is
        launched in declared order, step `i` at the time `times[i]` its `execute_task`
        reads, and its result reported. */
    method ExecuteRoutine(name: string, times: seq<int>) returns (r: RoutineResult)
      requires name in routines ==> |times| == |routines[name].steps|
      modifies this`runningTasks
      ensures name !in routines ==> r == RoutineNotFound && runningTasks == old(runningTasks)
      ensures name in routines ==>
        && r.RoutineRan?
        && |r.results| == |routines[name].steps|
        && (forall i :: 0 <= i < |r.results| ==>
              r.results[i] == Decide(tasks, routines[name].steps[i].task, routines[name].steps[i].params, times[i]))
        && runningTasks == LaunchAll(tasks, old(runningTasks), routines[name].steps, times)
    {
      if name !in routines {
        return RoutineNotFound;
      }
      var steps := routines[name].steps;
      var results: seq<LaunchResult> := [];
      var i := 0;
      while i < |steps|
        invariant 0 <= i <= |steps|
        invariant |results| == i
        invariant forall j :: 0 <= j < i ==> results[j] == Decide(tasks, steps[j].task, steps[j].params, times[j])
        invariant runningTasks == LaunchAll(tasks, old(runningTasks), steps[..i], times[..i])
      {
        assert steps[..i + 1][..i] == steps[..i] && times[..i + 1][..i] == times[..i];
        var result := ExecuteTask(steps[i].task, steps[i].params, times[i]);
        results := results + [result];
        i := i + 1;
      }
      assert steps[..i] == steps && times[..i] == times;
      r := RoutineRan(results);
    }

    /** `get_task_status`: the record stored under the id, or a not-found reply. */
    function GetTaskStatus(taskId: string): (r: StatusReply)
      reads this
      ensures r.Record? <==> taskId in runningTasks
      ensures r.Record? ==> r.record == runningTasks[taskId]
      ensures r.StatusNotFound? ==> r.message == "Task ID '" + taskId + "' not found"
    {
      if taskId in runningTasks then Record(runningTasks[taskId])
      else StatusNotFound("Task ID '" + taskId + "' not found")
    }

    /** `get_task_history`, i.e. `task_history[-limit:]`: the newest `limit` entries in order
        for a positive limit, the whole history for 0, and all but the oldest `-limit` for a
        negative one. */
    function GetTaskHistory(limit: int): (r: seq<HistoryEntry>)
      reads this
      ensures limit > 0 ==> r == taskHistory[|taskHistory| - Min(limit, |taskHistory|)..]
      ensures limit == 0 ==> r == taskHistory
      ensures limit < 0 ==> r == taskHistory[Min(-limit, |taskHistory|)..]
    {
      PyTailOfNegated(taskHistory, limit);
      PyTail(taskHistory, -limit)
    }

    /** `add_task`: refuses an existing name; otherwise registers the task under its name
        (which also becomes its display name). */
    method AddTask(name: string, description: string, parameters: seq<string>, handler: TaskFunction) returns (ok: bool)
      modifies this`tasks
      ensures ok <==> name !in old(tasks)
      ensures tasks == if ok then old(tasks)[name := TaskDef(name, description, parameters, handler)] else old(tasks)
    {
      if name in tasks {
        return false;
      }
      tasks := tasks[name := TaskDef(name, description, parameters, handler)];
      ok := true;
    }

    /** `add_routine`: refuses an existing name; otherwise registers the routine. */
    method AddRoutine(name: string, description: string, steps: seq<Step>) returns (ok: bool)
      modifies this`routines
      ensures ok <==> name !in old(routines)
      ensures routines == if ok then old(routines)[name := Routine(name, description, steps)] else old(routines)
    {
      if name in routines {
        return false;
      }
      routines := routines[name := Routine(name, description, steps)];
      ok := true;
    }
  }

  /** The morning routine on a new executor starts its three tasks, in order, each under
      the time its launch read. */
  method MorningRoutine(t0: int, t1: int, t2: int) returns (r: RoutineResult)
    ensures r.RoutineRan? && |r.results| == 3
    ensures r.results[0] == Started(TaskId("turn_on_lights", t0))
    ensures r.results[1] == Started(TaskId("check_weather", t1))
    ensures r.results[2] == Started(TaskId("play_music", t2))
  {
    var automation := new TaskAutomation();
    DefaultRoutinesStart(t0);
    DefaultRoutinesStart(t1);
    DefaultRoutinesStart(t2);
    r := automation.ExecuteRoutine("morning", [t0, t1, t2]);
  }
}
