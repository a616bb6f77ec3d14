/** The check of the completion events, over the rows alone, and that it is exact. */
module CompletionRows {
  import opened Tables

  datatype TaskRow = TaskRow(taskId: string, queue: string, state: State)
  datatype EventRow = EventRow(queue: string, name: EventName, payload: Payload)

  datatype Violation = MissingEvent(taskId: string) | Undecodable(taskId: string) | WithoutTask(taskId: string)

  /** The primary keys of the two tables. */
  ghost predicate Keyed(tasks: seq<TaskRow>, events: seq<EventRow>) {
    && (forall i, j :: 0 <= i < j < |tasks| ==> tasks[i].taskId != tasks[j].taskId)
    && (forall i, j :: 0 <= i < j < |events| ==> KeyOf(events[i]) != KeyOf(events[j]))
  }

  function KeyOf(event: EventRow): EventKey {
    (event.queue, event.name)
  }

  function DoneKey(task: TaskRow): EventKey {
    (task.queue, TaskDone(task.taskId))
  }

  ghost predicate HasEvent(events: seq<EventRow>, task: TaskRow) {
    exists event :: event in events && KeyOf(event) == DoneKey(task)
  }

  predicate HasEnded(task: TaskRow) {
    task.state == Completed || task.state == Failed || task.state == Cancelled
  }

  /** The text of an ending: a result of a completion, or a reason of a failure or a cancellation. */
  predicate TellsAnEnding(payload: Payload) {
    && payload.Encoded?
    && var outcome := payload.outcome;
      || (outcome.state == Completed && outcome.result.Some? && outcome.reason.None?)
      || ((outcome.state == Failed || outcome.state == Cancelled) && outcome.result.None? && outcome.reason.Some?)
  }

  /** The row is wrong in this way, each said of the rows. */
  ghost predicate Violates(tasks: seq<TaskRow>, events: seq<EventRow>, violation: Violation) {
    match violation
    case MissingEvent(id) =>
      exists task :: task in tasks && task.taskId == id && HasEnded(task) && !HasEvent(events, task)
    case Undecodable(id) =>
      exists task, event :: task in tasks && task.taskId == id && event in events && KeyOf(event) == DoneKey(task)
                            && !TellsAnEnding(event.payload)
    case WithoutTask(id) =>
      exists event :: event in events && event.name == TaskDone(id)
                      && forall task :: task in tasks ==> DoneKey(task) != KeyOf(event)
  }

  /** Every ended task has its event in its queue, every completion event decodes, and is of a task of its queue. */
  ghost predicate Clean(tasks: seq<TaskRow>, events: seq<EventRow>) {
    && (forall task :: task in tasks && HasEnded(task) ==> HasEvent(events, task))
    && (forall event :: event in events && event.name.TaskDone? ==>
          TellsAnEnding(event.payload) && exists task :: task in tasks && DoneKey(task) == KeyOf(event))
  }

  lemma CleanIsNoViolation(tasks: seq<TaskRow>, events: seq<EventRow>)
    ensures Clean(tasks, events) <==> forall violation :: !Violates(tasks, events, violation)
  {
    if Clean(tasks, events) {
      forall violation ensures !Violates(tasks, events, violation) {
        match violation
        case MissingEvent(id) =>
        case Undecodable(id) =>
        case WithoutTask(id) =>
      }
    } else if forall violation :: !Violates(tasks, events, violation) {
      forall task | task in tasks && HasEnded(task) ensures HasEvent(events, task) {
        assert !Violates(tasks, events, MissingEvent(task.taskId));
      }
      forall event | event in events && event.name.TaskDone?
        ensures TellsAnEnding(event.payload) && exists task :: task in tasks && DoneKey(task) == KeyOf(event)
      {
        assert !Violates(tasks, events, WithoutTask(event.name.taskId));
        assert !Violates(tasks, events, Undecodable(event.name.taskId));
      }
      assert false;
    }
  }

  /** The completion events by key. */
  method CompletionEvents(events: seq<EventRow>) returns (done: map<EventKey, EventRow>)
    requires forall i, j :: 0 <= i < j < |events| ==> KeyOf(events[i]) != KeyOf(events[j])
    ensures forall key :: key in done ==> done[key] in events && KeyOf(done[key]) == key && key.1.TaskDone?
    ensures forall event :: event in events && event.name.TaskDone? ==> KeyOf(event) in done && done[KeyOf(event)] == event
  {
    done := map[];
    for i := 0 to |events|
      invariant forall key :: key in done ==> done[key] in events[..i] && KeyOf(done[key]) == key && key.1.TaskDone?
      invariant forall event :: event in events[..i] && event.name.TaskDone? ==>
                  KeyOf(event) in done && done[KeyOf(event)] == event
    {
      if events[i].name.TaskDone? {
        done := done[KeyOf(events[i]) := events[i]];
      }
      assert events[..i + 1] == events[..i] + [events[i]];
    }
    assert events[..|events|] == events;
  }

  /** The walk over the tasks: each takes its own event out, and what is left has no task. */
  method CheckTasks(tasks: seq<TaskRow>, all: map<EventKey, EventRow>) returns (left: map<EventKey, EventRow>, found: seq<Violation>)
    requires forall i, j :: 0 <= i < j < |tasks| ==> tasks[i].taskId != tasks[j].taskId
    ensures forall key :: key in left <==> key in all && forall task :: task in tasks ==> DoneKey(task) != key
    ensures forall key :: key in left ==> left[key] == all[key]
    ensures forall violation :: violation in found <==>
              match violation
              case MissingEvent(id) =>
                exists task :: task in tasks && task.taskId == id && HasEnded(task) && DoneKey(task) !in all
              case Undecodable(id) =>
                exists task :: task in tasks && task.taskId == id && DoneKey(task) in all && !TellsAnEnding(all[DoneKey(task)].payload)
              case WithoutTask(id) => false
  {
    left, found := all, [];
    for i := 0 to |tasks|
      invariant forall key :: key in left <==> key in all && forall task :: task in tasks[..i] ==> DoneKey(task) != key
      invariant forall key :: key in left ==> left[key] == all[key]
      invariant forall violation :: violation in found <==>
                  match violation
                  case MissingEvent(id) =>
                    exists task :: task in tasks[..i] && task.taskId == id && HasEnded(task) && DoneKey(task) !in all
                  case Undecodable(id) =>
                    exists task :: task in tasks[..i] && task.taskId == id && DoneKey(task) in all
                                   && !TellsAnEnding(all[DoneKey(task)].payload)
                  case WithoutTask(id) => false
    {
      var task := tasks[i];
      var key := DoneKey(task);
      assert tasks[..i + 1] == tasks[..i] + [task];
      assert key in left <==> key in all;
      if key !in left {
        if !task.state.Live() { found := found + [MissingEvent(task.taskId)]; }
      } else if !Decodes(left[key].payload) {
        found := found + [Undecodable(task.taskId)];
      }
      left := left - {key};
    }
    assert tasks[..|tasks|] == tasks;
  }

  method ChildTaskViolations(tasks: seq<TaskRow>, events: seq<EventRow>) returns (violations: seq<Violation>)
    requires Keyed(tasks, events)
    ensures forall violation :: violation in violations <==> Violates(tasks, events, violation)
    ensures violations == [] <==> Clean(tasks, events)
  {
    hide HasEnded, TellsAnEnding;
    var done := CompletionEvents(events);
    var left, found := CheckTasks(tasks, done);
    violations := found;
    for i := 0 to |events|
      invariant forall violation :: violation in violations <==>
                  violation in found
                  || (violation.WithoutTask?
                      && exists event :: event in events[..i] && event.name == TaskDone(violation.taskId) && KeyOf(event) in left)
    {
      assert events[..i + 1] == events[..i] + [events[i]];
      if KeyOf(events[i]) in left {
        violations := violations + [WithoutTask(events[i].name.taskId)];
      }
    }
    assert events[..|events|] == events;
    CleanIsNoViolation(tasks, events);
    if violations != [] { assert violations[0] in violations; }
  }

  /** What a fault matrix cell is judged by: the missing event of a task an older build cancelled is excused. */
  method MatrixViolations(tasks: seq<TaskRow>, events: seq<EventRow>, endedByOlderBuild: set<string>)
    returns (violations: seq<Violation>)
    requires Keyed(tasks, events)
    ensures forall violation :: violation in violations <==>
              && Violates(tasks, events, violation)
              && !(violation.MissingEvent? && violation.taskId in endedByOlderBuild
                   && exists task :: task in tasks && task.taskId == violation.taskId && task.state == Cancelled)
  {
    var all := ChildTaskViolations(tasks, events);
    violations := [];
    for i := 0 to |all|
      invariant forall violation :: violation in violations <==>
                  violation in all[..i] && !Excused(tasks, endedByOlderBuild, violation)
    {
      assert all[..i + 1] == all[..i] + [all[i]];
      if !Excused(tasks, endedByOlderBuild, all[i]) { violations := violations + [all[i]]; }
    }
    assert all[..|all|] == all;
  }

  predicate Excused(tasks: seq<TaskRow>, endedByOlderBuild: set<string>, violation: Violation) {
    violation.MissingEvent? && violation.taskId in endedByOlderBuild
    && exists task :: task in tasks && task.taskId == violation.taskId && task.state == Cancelled
  }
}
