/**
 * What one purge of a task's unit may remove, and what any sequence of purges leaves.
 *
 * A dump is every table, row by row. A unit is one task and what only it owns. The barrier is
 * the eleven conditions that keep a unit. The method reads a dump as the program does, and the
 * lemmas are about the whole life of a queue under one policy at one instant.
 */
module Retention {
  import opened Options
  import opened Rows

  const MAX_EPOCH_MS: int := 253_402_300_799_000
  const MAX_PURGE_UNIT_CHECKPOINTS: nat := 200_000
  const CHILD_KEY_PREFIX: string := "$spawn:"
  const TASK_DONE_PREFIX: string := "$task-done:"

  /** What an integer column can hold, a corrupt value included. */
  datatype Cell = Null | Number(n: int) | BigInt(n: int) | NotAnInteger

  datatype TaskRow = TaskRow(taskId: string, queue: string, state: string, fenceAtMs: Cell, key: Option<string>)
  datatype RunRow = RunRow(runId: string, taskId: string, queue: string, state: string,
                           wakeEvent: Option<string>, eventPayload: Option<string>)
  datatype CheckpointRow = CheckpointRow(taskId: string, name: string, state: string)
  datatype WaitRow = WaitRow(runId: string, stepName: string, queue: string, eventName: string)
  datatype EventRow = EventRow(queue: string, eventName: string, payload: string)
  datatype Dump = Dump(tasks: seq<TaskRow>, runs: seq<RunRow>, checkpoints: seq<CheckpointRow>,
                       waits: seq<WaitRow>, events: seq<EventRow>, drivers: seq<string>)

  datatype Policy = Policy(completedSeconds: int, cancelledSeconds: int, failedSeconds: Option<int>)

  /** The unit a caller names: its task, and the key it says the task was spawned under. */
  datatype Unit = Unit(taskId: string, key: Option<string>)

  /** Everything a purge is given besides the dump and the unit: one queue at one instant. */
  datatype Terms = Terms(nowMs: int, queue: string, policy: Policy, parentOf: string -> Option<string>)

  /** What keeps a unit, in the barrier's order. */
  datatype KeptBy = NoSuchTask | State | Stamp | Age | LiveRun | Carry | Wait | Parent | Key | ForeignRun | Cap

  const KEPT_BY: seq<KeptBy> :=
    [NoSuchTask, State, Stamp, Age, LiveRun, Carry, Wait, Parent, Key, ForeignRun, Cap]

  datatype Counts = Counts(tasks: nat, runs: nat, checkpoints: nat, waits: nat, events: nat)

  datatype Oracle = Oracle(keptBy: seq<KeptBy>, rows: Counts, after: Dump)

  predicate IsLiveState(state: string) {
    state == "pending" || state == "running" || state == "sleeping"
  }

  function TaskDoneEvent(taskId: string): string {
    TASK_DONE_PREFIX + taskId
  }

  function Instant(cell: Cell): Option<int> {
    match cell
    case Number(n) => if 0 <= n <= MAX_EPOCH_MS then Some(n) else None
    case BigInt(n) => if 0 <= n <= MAX_EPOCH_MS then Some(n) else None
    case Null => None
    case NotAnInteger => None
  }

  function WindowMs(policy: Policy, state: string): Option<int> {
    if state == "completed" then Some(policy.completedSeconds * 1000)
    else if state == "cancelled" then Some(policy.cancelledSeconds * 1000)
    else if state == "failed" && policy.failedSeconds.Some? then Some(policy.failedSeconds.value * 1000)
    else None
  }

  predicate StartsWith(text: string, prefix: string) {
    |prefix| <= |text| && text[..|prefix|] == prefix
  }

  predicate CanNoLongerRun(parent: TaskRow) {
    parent.state == "completed" || parent.state == "cancelled"
  }

  /** The row of task `taskId` in any queue, as the parent of a child is found. */
  function TaskAnywhere(d: Dump, taskId: string): Option<TaskRow> {
    Find(d.tasks, (row: TaskRow) => row.taskId == taskId)
  }

  function TaskIn(d: Dump, queue: string, taskId: string): Option<TaskRow> {
    Find(d.tasks, (row: TaskRow) => row.taskId == taskId && row.queue == queue)
  }

  /** The runs a purge in `queue` deletes with the task. */
  function RunIdsOf(d: Dump, queue: string, taskId: string): (ids: set<string>) {
    set run | run in d.runs && run.taskId == taskId && run.queue == queue :: run.runId
  }

  function CheckpointsOf(d: Dump, taskId: string): seq<CheckpointRow> {
    Filter(d.checkpoints, (row: CheckpointRow) => row.taskId == taskId)
  }

  /** The task found first under this id, in this queue if one is named. */
  ghost predicate IsFoundAt(d: Dump, taskId: string, queue: Option<string>, i: int) {
    && 0 <= i < |d.tasks| && d.tasks[i].taskId == taskId && (queue.Some? ==> d.tasks[i].queue == queue.value)
    && forall j :: 0 <= j < i ==> !(d.tasks[j].taskId == taskId && (queue.Some? ==> d.tasks[j].queue == queue.value))
  }

  /** A parent of this id stands in some queue, and is neither completed nor cancelled. */
  ghost predicate ParentMayRun(d: Dump, parentId: string) {
    exists i :: IsFoundAt(d, parentId, None, i) && d.tasks[i].state != "completed" && d.tasks[i].state != "cancelled"
  }

  /** How long a policy keeps a task that ended so, in seconds; a state it does not name is kept. */
  ghost predicate KeptFor(policy: Policy, state: string, seconds: int) {
    || (state == "completed" && seconds == policy.completedSeconds)
    || (state == "cancelled" && seconds == policy.cancelledSeconds)
    || (state == "failed" && policy.failedSeconds == Some(seconds))
  }

  /** The instant a stamp holds: a whole number of milliseconds from the epoch to the last second of the year 9999. */
  ghost predicate IsInstant(cell: Cell, ms: int) {
    (cell == Number(ms) || cell == BigInt(ms)) && 0 <= ms <= 253_402_300_799_000
  }

  /**
   * Whether `condition` keeps the unit of this task. Each is said of the rows, the policy and
   * the instant alone, and of none of the functions the oracle computes with.
   */
  ghost predicate KeepsTask(d: Dump, terms: Terms, unit: Unit, task: TaskRow, condition: KeptBy) {
    match condition
    case NoSuchTask => false
    case State => forall seconds :: !KeptFor(terms.policy, task.state, seconds)
    case Stamp => forall ms :: !IsInstant(task.fenceAtMs, ms)
    case Age =>
      exists seconds, ms :: KeptFor(terms.policy, task.state, seconds) && IsInstant(task.fenceAtMs, ms)
                            && ms + 1000 * seconds > terms.nowMs
    case LiveRun =>
      exists run :: run in d.runs && run.taskId == unit.taskId
                    && (run.state == "pending" || run.state == "running" || run.state == "sleeping")
    case Carry =>
      exists run :: run in d.runs && run.queue == terms.queue && run.taskId != unit.taskId
                    && run.wakeEvent == Some("$task-done:" + unit.taskId) && run.eventPayload.Some?
    case Wait =>
      exists wait :: wait in d.waits && wait.queue == terms.queue && wait.eventName == "$task-done:" + unit.taskId
    case Parent =>
      && task.key.Some? && |task.key.value| >= 7 && task.key.value[..7] == "$spawn:"
      && var named := terms.parentOf(task.key.value);
         named.None? || ParentMayRun(d, named.value)
    case Key => unit.key != task.key
    case ForeignRun => exists run :: run in d.runs && run.taskId == unit.taskId && run.queue != terms.queue
    case Cap => |Filter(d.checkpoints, (row: CheckpointRow) => row.taskId == unit.taskId)| > 200_000
  }

  /** Whether `condition` keeps the unit. A unit no task of the queue has is kept by that alone. */
  ghost predicate Keeps(d: Dump, terms: Terms, unit: Unit, condition: KeptBy) {
    if forall i :: !IsFoundAt(d, unit.taskId, Some(terms.queue), i) then condition == NoSuchTask
    else exists i :: IsFoundAt(d, unit.taskId, Some(terms.queue), i) && KeepsTask(d, terms, unit, d.tasks[i], condition)
  }

  /** The oracle's searches find the rows the conditions are about. */
  lemma {:induction false} FindIsFirst<T>(rows: seq<T>, found: T -> bool) returns (at: nat)
    ensures at <= |rows| && forall j :: 0 <= j < at ==> !found(rows[j])
    ensures Find(rows, found).None? ==> at == |rows|
    ensures Find(rows, found).Some? ==> at < |rows| && found(rows[at]) && Find(rows, found) == Some(rows[at])
  {
    if rows == [] || found(rows[0]) {
      at := 0;
    } else {
      var rest := FindIsFirst(rows[1..], found);
      at := rest + 1;
      forall j | 0 <= j < at ensures !found(rows[j]) {
        if j > 0 { assert rows[j] == rows[1..][j - 1]; }
      }
    }
  }

  lemma FoundIn(d: Dump, queue: string, taskId: string)
    ensures TaskIn(d, queue, taskId).None? <==> forall i :: !IsFoundAt(d, taskId, Some(queue), i)
    ensures forall i :: IsFoundAt(d, taskId, Some(queue), i) ==> TaskIn(d, queue, taskId) == Some(d.tasks[i])
  {
    var at := FindIsFirst(d.tasks, (row: TaskRow) => row.taskId == taskId && row.queue == queue);
    if TaskIn(d, queue, taskId).Some? { assert IsFoundAt(d, taskId, Some(queue), at); }
  }

  lemma FoundAnywhere(d: Dump, taskId: string)
    ensures TaskAnywhere(d, taskId).None? <==> forall i :: !IsFoundAt(d, taskId, None, i)
    ensures forall i :: IsFoundAt(d, taskId, None, i) ==> TaskAnywhere(d, taskId) == Some(d.tasks[i])
  {
    var at := FindIsFirst(d.tasks, (row: TaskRow) => row.taskId == taskId);
    if TaskAnywhere(d, taskId).Some? { assert IsFoundAt(d, taskId, None, at); }
  }

  lemma KeepsIsOfTheTask(d: Dump, terms: Terms, unit: Unit, condition: KeptBy)
    ensures Keeps(d, terms, unit, condition) <==>
      match TaskIn(d, terms.queue, unit.taskId)
      case None => condition == NoSuchTask
      case Some(task) => KeepsTask(d, terms, unit, task, condition)
  {
    FoundIn(d, terms.queue, unit.taskId);
  }

  /** A parent that may run is one the search finds, not yet completed or cancelled. */
  lemma ParentIsFound(d: Dump, parentId: string)
    ensures ParentMayRun(d, parentId) <==>
      TaskAnywhere(d, parentId).Some? && TaskAnywhere(d, parentId).value.state != "completed"
      && TaskAnywhere(d, parentId).value.state != "cancelled"
  {
    FoundAnywhere(d, parentId);
  }

  /** The model lets the unit go. */
  ghost predicate Allowed(d: Dump, terms: Terms, unit: Unit) {
    forall condition :: !Keeps(d, terms, unit, condition)
  }

  function OtherTask(taskId: string): TaskRow -> bool {
    (row: TaskRow) => row.taskId != taskId
  }

  function OtherRun(queue: string, taskId: string): RunRow -> bool {
    (row: RunRow) => !(row.taskId == taskId && row.queue == queue)
  }

  function OtherCheckpoint(taskId: string): CheckpointRow -> bool {
    (row: CheckpointRow) => row.taskId != taskId
  }

  function OtherWait(ids: set<string>): WaitRow -> bool {
    (row: WaitRow) => row.runId !in ids
  }

  function OtherEvent(queue: string, taskId: string): EventRow -> bool {
    (row: EventRow) => !(row.queue == queue && row.eventName == TaskDoneEvent(taskId))
  }

  /** The dump less the unit. */
  function Removed(d: Dump, queue: string, taskId: string): Dump {
    d.(tasks := Filter(d.tasks, OtherTask(taskId)),
       runs := Filter(d.runs, OtherRun(queue, taskId)),
       checkpoints := Filter(d.checkpoints, OtherCheckpoint(taskId)),
       waits := Filter(d.waits, OtherWait(RunIdsOf(d, queue, taskId))),
       events := Filter(d.events, OtherEvent(queue, taskId)))
  }

  /** The dump as one purge leaves it. A unit that is kept is left whole. */
  ghost function After(d: Dump, terms: Terms, unit: Unit): Dump {
    if Allowed(d, terms, unit) then Removed(d, terms.queue, unit.taskId) else d
  }

  /** The dump as a sequence of purges leaves it. */
  ghost function AfterAll(d: Dump, terms: Terms, units: seq<Unit>): Dump
    decreases |units|
  {
    if units == [] then d else AfterAll(After(d, terms, units[0]), terms, units[1..])
  }

  // ------------------------------------------------------------------------------------------
  // The oracle, as the program computes it.

  method AnyRun(runs: seq<RunRow>, wanted: RunRow -> bool) returns (found: bool)
    ensures found <==> exists run :: run in runs && wanted(run)
  {
    for i := 0 to |runs|
      invariant forall j :: 0 <= j < i ==> !wanted(runs[j])
    {
      if wanted(runs[i]) { return true; }
    }
    return false;
  }

  method AnyWait(waits: seq<WaitRow>, wanted: WaitRow -> bool) returns (found: bool)
    ensures found <==> exists wait :: wait in waits && wanted(wait)
  {
    for i := 0 to |waits|
      invariant forall j :: 0 <= j < i ==> !wanted(waits[j])
    {
      if wanted(waits[i]) { return true; }
    }
    return false;
  }

  /** The policy's window is the seconds it keeps the state for, and there is none for a state it keeps. */
  lemma WindowIsKeptFor(policy: Policy, state: string)
    ensures forall seconds :: KeptFor(policy, state, seconds) <==> WindowMs(policy, state) == Some(seconds * 1000)
    ensures WindowMs(policy, state).Some? ==> KeptFor(policy, state, WindowMs(policy, state).value / 1000)
  {
  }

  lemma InstantIsRead(cell: Cell)
    ensures forall ms :: IsInstant(cell, ms) <==> Instant(cell) == Some(ms)
  {
  }

  /** The conditions of the task's own row: its state, its stamp, its age, its parent, and its key. */
  method OwnConditions(d: Dump, terms: Terms, unit: Unit, task: TaskRow) returns (keptBy: set<KeptBy>)
    ensures forall condition :: condition in keptBy <==>
              condition in {State, Stamp, Age, Parent, Key} && KeepsTask(d, terms, unit, task, condition)
  {
    keptBy := {};
    var window, stamped := WindowMs(terms.policy, task.state), Instant(task.fenceAtMs);
    WindowIsKeptFor(terms.policy, task.state);
    InstantIsRead(task.fenceAtMs);
    if window.None? { keptBy := keptBy + {State}; }
    if stamped.None? { keptBy := keptBy + {Stamp}; }
    if window.Some? && stamped.Some? && stamped.value > terms.nowMs - window.value {
      assert KeptFor(terms.policy, task.state, window.value / 1000) && IsInstant(task.fenceAtMs, stamped.value);
      keptBy := keptBy + {Age};
    }
    if task.key.Some? && StartsWith(task.key.value, CHILD_KEY_PREFIX) {
      var named := terms.parentOf(task.key.value);
      var parent := if named.None? then None else TaskAnywhere(d, named.value);
      if named.Some? { ParentIsFound(d, named.value); }
      if named.None? || (parent.Some? && !CanNoLongerRun(parent.value)) { keptBy := keptBy + {Parent}; }
    }
    if unit.key != task.key { keptBy := keptBy + {Key}; }
  }

  /** The conditions other rows decide: its runs, who carries its outcome, who waits for it, its size. */
  method RowConditions(d: Dump, terms: Terms, unit: Unit, task: TaskRow) returns (keptBy: set<KeptBy>)
    ensures forall condition :: condition in keptBy <==>
              condition in {LiveRun, Carry, Wait, ForeignRun, Cap} && KeepsTask(d, terms, unit, task, condition)
  {
    var queue, id, done := terms.queue, unit.taskId, TaskDoneEvent(unit.taskId);
    var live := AnyRun(d.runs, (row: RunRow) => row.taskId == id && IsLiveState(row.state));
    var carried := AnyRun(d.runs, (row: RunRow) =>
      row.queue == queue && row.taskId != id && row.wakeEvent == Some(done) && row.eventPayload.Some?);
    var waited := AnyWait(d.waits, (row: WaitRow) => row.queue == queue && row.eventName == done);
    var foreign := ForeignRuns(d, queue, id);
    var tooLarge := |CheckpointsOf(d, id)| > MAX_PURGE_UNIT_CHECKPOINTS;
    FilterAgrees(d.checkpoints, (row: CheckpointRow) => row.taskId == id, (row: CheckpointRow) => row.taskId == unit.taskId);
    assert live <==> KeepsTask(d, terms, unit, task, LiveRun);
    assert carried <==> KeepsTask(d, terms, unit, task, Carry);
    assert waited <==> KeepsTask(d, terms, unit, task, Wait);
    assert foreign <==> KeepsTask(d, terms, unit, task, ForeignRun);
    assert tooLarge <==> KeepsTask(d, terms, unit, task, Cap);
    keptBy := {};
    if live { keptBy := keptBy + {LiveRun}; }
    if carried { keptBy := keptBy + {Carry}; }
    if waited { keptBy := keptBy + {Wait}; }
    if foreign { keptBy := keptBy + {ForeignRun}; }
    if tooLarge { keptBy := keptBy + {Cap}; }
  }

  /** A run of the task is in another queue: its runs are not as many as its runs in this one. */
  method ForeignRuns(d: Dump, queue: string, taskId: string) returns (foreign: bool)
    ensures foreign <==> exists run :: run in d.runs && run.taskId == taskId && run.queue != queue
  {
    var itsRuns := Filter(d.runs, (row: RunRow) => row.taskId == taskId);
    var inQueue := Filter(itsRuns, (row: RunRow) => row.queue == queue);
    FilterMembers(d.runs, (row: RunRow) => row.taskId == taskId);
    FilterAllOrFewer(itsRuns, (row: RunRow) => row.queue == queue);
    return |itsRuns| != |inQueue|;
  }

  /** The conditions found, in the barrier's order. */
  method InOrder(keptBy: set<KeptBy>) returns (kept: seq<KeptBy>)
    ensures forall condition :: condition in kept <==> condition in keptBy
    ensures forall i, j :: 0 <= i < j < |kept| ==> Rank(kept[i]) < Rank(kept[j])
  {
    kept := [];
    for i := 0 to |KEPT_BY|
      invariant forall condition :: condition in kept <==> condition in keptBy && Rank(condition) < i
      invariant forall a, b :: 0 <= a < b < |kept| ==> Rank(kept[a]) < Rank(kept[b])
    {
      assert Rank(KEPT_BY[i]) == i;
      if KEPT_BY[i] in keptBy { kept := kept + [KEPT_BY[i]]; }
    }
  }

  /** How many rows of each table `deleted` no longer holds are the rows the oracle counts. */
  ghost predicate Counted(rows: Counts, before: Dump, deleted: Dump) {
    && |before.tasks| == rows.tasks + |deleted.tasks|
    && |before.runs| == rows.runs + |deleted.runs|
    && |before.checkpoints| == rows.checkpoints + |deleted.checkpoints|
    && |before.waits| == rows.waits + |deleted.waits|
    && |before.events| == rows.events + |deleted.events|
  }

  /** The rows of one table that are not the unit's, and how many are. */
  method Cut<T>(rows: seq<T>, other: T -> bool) returns (count: nat, kept: seq<T>)
    ensures kept == Filter(rows, other)
    ensures |rows| == count + |kept|
  {
    count, kept := |Filter(rows, row => !other(row))|, Filter(rows, other);
    FilterCounts(rows, other);
  }

  /**
   * What the model says of one purge: every condition that keeps the unit, in the barrier's
   * order, how many rows it holds, and every table as the purge must leave it.
   */
  method PurgeOracle(d: Dump, terms: Terms, unit: Unit) returns (oracle: Oracle)
    ensures forall condition :: condition in oracle.keptBy <==> Keeps(d, terms, unit, condition)
    ensures forall i, j :: 0 <= i < j < |oracle.keptBy| ==> Rank(oracle.keptBy[i]) < Rank(oracle.keptBy[j])
    ensures oracle.after == After(d, terms, unit)
    ensures oracle.keptBy != [NoSuchTask] ==> Counted(oracle.rows, d, Removed(d, terms.queue, unit.taskId))
  {
    var found := TaskIn(d, terms.queue, unit.taskId);
    forall condition
      ensures Keeps(d, terms, unit, condition) <==>
        if found.None? then condition == NoSuchTask else KeepsTask(d, terms, unit, found.value, condition)
    {
      KeepsIsOfTheTask(d, terms, unit, condition);
    }
    if found.None? {
      assert Keeps(d, terms, unit, NoSuchTask);
      return Oracle([NoSuchTask], Counts(0, 0, 0, 0, 0), d);
    }
    var own := OwnConditions(d, terms, unit, found.value);
    var others := RowConditions(d, terms, unit, found.value);
    var kept := InOrder(own + others);
    var tasks, keptTasks := Cut(d.tasks, OtherTask(unit.taskId));
    var runs, keptRuns := Cut(d.runs, OtherRun(terms.queue, unit.taskId));
    var checkpoints, keptCheckpoints := Cut(d.checkpoints, OtherCheckpoint(unit.taskId));
    var waits, keptWaits := Cut(d.waits, OtherWait(RunIdsOf(d, terms.queue, unit.taskId)));
    var events, keptEvents := Cut(d.events, OtherEvent(terms.queue, unit.taskId));
    var rows := Counts(tasks, runs, checkpoints, waits, events);
    if |kept| > 0 {
      assert Keeps(d, terms, unit, kept[0]);
      return Oracle(kept, rows, d);
    }
    return Oracle([], rows, Dump(keptTasks, keptRuns, keptCheckpoints, keptWaits, keptEvents, d.drivers));
  }

  /** A condition's place in the barrier's order. */
  function Rank(condition: KeptBy): (rank: nat)
    ensures rank < |KEPT_BY| && KEPT_BY[rank] == condition
  {
    match condition
    case NoSuchTask => 0
    case State => 1
    case Stamp => 2
    case Age => 3
    case LiveRun => 4
    case Carry => 5
    case Wait => 6
    case Parent => 7
    case Key => 8
    case ForeignRun => 9
    case Cap => 10
  }
}
