/**
 * What each step does, said of the rows alone: when it acts, and every row it leaves. Nothing
 * here names a guard or a helper of the batches, and what the batches ask beyond this (that a
 * task is live, that a run is its only live one, that its ordinal fits) refuses nobody.
 */
module ProtocolEffects {
  import opened Options
  import opened Tables
  import opened ProtocolHistory
  import Protocol

  // ------------------------------------------------------------------------------------------
  // Rows. A stamp is no part of what is said of one.

  function Bare(run: Run): Run {
    run.(stamp := Unstamped)
  }

  function BareTask(task: Task): Task {
    task.(stamp := Unstamped)
  }

  /** The clock and the rows of every other task and run are as they were. */
  ghost predicate Only(db: Db, after: Db, taskIds: set<string>, ids: set<string>) {
    && after.now == db.now
    && after.tasks.Keys == db.tasks.Keys + taskIds && after.runs.Keys == db.runs.Keys + ids
    && (forall taskId :: taskId in db.tasks && taskId !in taskIds ==> after.tasks[taskId] == db.tasks[taskId])
    && (forall id :: id in db.runs && id !in ids ==> after.runs[id] == db.runs[id])
  }

  /** One run and its task are written, and nothing else. */
  ghost predicate Written(db: Db, after: Db, id: string, run: Run, task: Task) {
    && Only(db, after, {run.taskId}, {id}) && after.waits == db.waits && after.events == db.events
    && Bare(after.runs[id]) == Bare(run) && BareTask(after.tasks[run.taskId]) == BareTask(task)
  }

  predicate InProgress(state: State) {
    state == Pending || state == Running || state == Sleeping
  }

  /** The run is over: nobody holds it, and a run that did not complete keeps the wake it carried. */
  predicate Over(run: Run, after: Run, state: State) {
    && after.state == state && after.claimedBy.None?
    && after.taskId == run.taskId && after.queue == run.queue && after.attempt == run.attempt
    && after.availableAt == run.availableAt && after.claimGen == run.claimGen && after.activatedGen == run.activatedGen
    && after.relaunches == run.relaunches && after.leaseMs == run.leaseMs
    && (if state == Completed then after.wakeEvent.None? && after.wakeStep.None? && after.eventPayload.None?
        else after.wakeEvent == run.wakeEvent && after.wakeStep == run.wakeStep && after.eventPayload == run.eventPayload)
  }

  /** The attempt after this run, never claimed, with the wake it carried. */
  function NextAttempt(run: Run, state: State, due: int): Run {
    Run(run.taskId, run.queue, run.attempt + 1, state, Some(due), run.wakeEvent, run.wakeStep, run.eventPayload,
        None, 0, 0, 0, 0, None, Unstamped)
  }

  /** The run failed, and its next attempt waits for `due` under the task's books as given. */
  ghost predicate TriedAgain(db: Db, after: Db, id: string, nextId: string, due: int, task: Task)
    requires id in db.runs
  {
    var run := db.runs[id];
    && Only(db, after, {run.taskId}, {id, nextId}) && after.waits == db.waits && after.events == db.events
    && Over(run, after.runs[id], Failed)
    && Bare(after.runs[nextId]) == NextAttempt(run, task.state, due)
    && BareTask(after.tasks[run.taskId]) == BareTask(task)
  }

  /** A wait for this event of this queue. */
  predicate IsFor(wait: Wait, queue: string, name: EventName) {
    wait.queue == queue && wait.event == name
  }

  ghost predicate Waits(db: Db, id: string, queue: string, name: EventName) {
    exists key :: key in db.waits && key.0 == id && IsFor(db.waits[key], queue, name)
  }

  ghost predicate TaskWaits(db: Db, taskId: string, queue: string, name: EventName) {
    exists key :: key in db.waits && db.waits[key].taskId == taskId && IsFor(db.waits[key], queue, name)
  }

  /**
   * Of every task but those in `ended`: whoever waited for the event is due now with the payload
   * and waits no more, and no other row changes.
   */
  ghost predicate Tells(db: Db, after: Db, queue: string, name: EventName, payload: Payload, ended: set<string>) {
    && after.now == db.now && after.tasks.Keys == db.tasks.Keys && after.runs.Keys == db.runs.Keys
    && (forall id :: id in db.runs && db.runs[id].taskId !in ended ==>
          Bare(after.runs[id]) == Bare(
            if Waits(db, id, queue, name)
            then db.runs[id].(state := Pending, availableAt := Some(db.now), eventPayload := Some(payload))
            else db.runs[id]))
    && (forall taskId :: taskId in db.tasks && taskId !in ended ==>
          BareTask(after.tasks[taskId]) == BareTask(
            if TaskWaits(db, taskId, queue, name) then db.tasks[taskId].(state := Pending) else db.tasks[taskId]))
    && after.waits == map key | key in db.waits && db.waits[key].taskId !in ended && !IsFor(db.waits[key], queue, name)
                        :: db.waits[key]
  }

  /** The event is there from now on. One that was there is as it was. */
  ghost predicate Happens(db: Db, after: Db, key: EventKey, payload: Payload) {
    && after.events.Keys == db.events.Keys + {key}
    && (forall other :: other in db.events ==>
          after.events[other].payload == db.events[other].payload && after.events[other].emittedAt == db.events[other].emittedAt)
    && (key !in db.events ==> after.events[key].payload == payload && after.events[key].emittedAt == db.now)
  }

  /** The task is over as `row` and its live run with it, and whoever waits for it is told the outcome. */
  ghost predicate Finishes(db: Db, after: Db, taskId: string, row: Task, outcome: Outcome)
    requires taskId in db.tasks
  {
    var queue := db.tasks[taskId].queue;
    && Tells(db, after, queue, TaskDone(taskId), Encoded(outcome), {taskId})
    && Happens(db, after, (queue, TaskDone(taskId)), Encoded(outcome))
    && BareTask(after.tasks[taskId]) == BareTask(row)
    && (forall id :: id in db.runs && db.runs[id].taskId == taskId ==>
          if InProgress(db.runs[id].state) then Over(db.runs[id], after.runs[id], outcome.state)
          else Bare(after.runs[id]) == Bare(db.runs[id]))
  }

  // ------------------------------------------------------------------------------------------
  // What the steps ask.

  /** The run runs under the token. */
  predicate Holds(db: Db, queue: string, id: string, token: string) {
    && id in db.runs && db.runs[id].queue == queue && db.runs[id].state == Running
    && db.runs[id].claimedBy == Some(token) && db.runs[id].taskId in db.tasks
  }

  predicate Overdue(task: Task, now: int) {
    task.cancelAt.Some? && task.cancelAt.value <= now
  }

  /** A claim not yet started, of a task whose deadline is ahead. */
  predicate Unstarted(db: Db, queue: string, id: string, token: string, gen: nat) {
    && Holds(db, queue, id, token) && db.runs[id].claimGen == gen && db.runs[id].activatedGen < gen
    && !Overdue(db.tasks[db.runs[id].taskId], db.now)
  }

  /** A claim whose lease ran out, under the generation given. */
  predicate RanOut(db: Db, queue: string, id: string, gen: nat) {
    && id in db.runs && db.runs[id].queue == queue && db.runs[id].state == Running && db.runs[id].claimGen == gen
    && db.runs[id].expiresAt.Some? && db.runs[id].expiresAt.value <= db.now && db.runs[id].taskId in db.tasks
  }

  predicate DueToRun(db: Db, queue: string, id: string) {
    && id in db.runs && db.runs[id].queue == queue && (db.runs[id].state == Pending || db.runs[id].state == Sleeping)
    && db.runs[id].availableAt.Some? && db.runs[id].availableAt.value <= db.now
    && db.runs[id].taskId in db.tasks && !Overdue(db.tasks[db.runs[id].taskId], db.now)
  }

  predicate HasRoom(db: Db, s: Protocol.Spawning) {
    && s.maxAttempts > 0 && s.taskId !in db.tasks && s.runId !in db.runs
    && (s.key.Some? ==> forall taskId :: taskId in db.tasks && db.tasks[taskId].queue == s.queue ==> db.tasks[taskId].key != s.key)
    && (s.parent.Some? ==>
          var p := s.parent.value;
          && Holds(db, p.queue, p.runId, p.token) && db.runs[p.runId].taskId == p.taskId
          && db.tasks[p.taskId].saga.None?)
  }

  predicate MayWait(db: Db, a: Protocol.Await, name: EventName) {
    && Holds(db, a.queue, a.runId, a.token) && db.runs[a.runId].taskId == a.taskId
    && !Overdue(db.tasks[a.taskId], db.now) && db.tasks[a.taskId].saga.None?
    && (a.queue, name) !in db.events
    && (name.TaskDone? ==>
          name.taskId in db.tasks && db.tasks[name.taskId].queue == a.queue
          && InProgress(db.tasks[name.taskId].state))
  }

  // ------------------------------------------------------------------------------------------
  // What the steps do.

  ghost predicate SpawnDoes(db: Db, s: Protocol.Spawning, after: Db) {
    if !HasRoom(db, s) then after == db
    else
      && Only(db, after, {s.taskId}, {s.runId}) && after.waits == db.waits && after.events == db.events
      && BareTask(after.tasks[s.taskId])
         == Task(s.queue, s.key, Pending, 0, s.maxAttempts, 0,
                 if s.maxDelayMs.Some? then Some(db.now + s.delayMs + s.maxDelayMs.value) else None, s.maxDurationMs,
                 None, None, None, false, None, Unstamped)
      && Bare(after.runs[s.runId])
         == Run(s.taskId, s.queue, 1, Pending, Some(db.now + s.delayMs), None, None, None, None, 0, 0, 0, 0, None, Unstamped)
  }

  predicate MayTake(db: Db, queue: string, token: string, leaseMs: nat, limit: nat, picked: set<string>) {
    && leaseMs > 0 && |picked| <= limit
    && (forall id :: id in db.runs && db.runs[id].queue == queue && db.runs[id].state == Running
          ==> db.runs[id].claimedBy != Some(token))
    && (forall id :: id in picked ==> DueToRun(db, queue, id))
  }

  /** The claimed runs wait for nothing any more: a wait of theirs is over with its instant. */
  ghost predicate ClaimDoes(db: Db, queue: string, token: string, leaseMs: nat, limit: nat, picked: set<string>, after: Db) {
    if !MayTake(db, queue, token, leaseMs, limit, picked) then after == db
    else
      && after.now == db.now && after.events == db.events
      && after.tasks.Keys == db.tasks.Keys && after.runs.Keys == db.runs.Keys
      && (forall id :: id in db.runs ==>
            Bare(after.runs[id]) == Bare(
              if id in picked
              then db.runs[id].(state := Running, claimedBy := Some(token), claimGen := db.runs[id].claimGen + 1,
                                leaseMs := leaseMs, expiresAt := Some(db.now + leaseMs))
              else db.runs[id]))
      && (forall taskId :: taskId in db.tasks ==>
            BareTask(after.tasks[taskId]) == BareTask(
              if exists id :: id in picked && db.runs[id].taskId == taskId
              then db.tasks[taskId].(state := Running) else db.tasks[taskId]))
      && after.waits == map key | key in db.waits && key.0 !in picked :: db.waits[key]
  }

  ghost predicate ActivateDoes(db: Db, queue: string, id: string, token: string, gen: nat, after: Db) {
    if !Unstarted(db, queue, id, token, gen) then after == db
    else
      var run := db.runs[id];
      var task := db.tasks[run.taskId];
      var started := if task.firstStartedAt.Some? then task.firstStartedAt.value else db.now;
      Written(db, after, id, run.(activatedGen := gen, expiresAt := Some(db.now + run.leaseMs)),
              task.(firstStartedAt := Some(started),
                    cancelAt := if task.maxDurationMs.Some? then Some(started + task.maxDurationMs.value) else None))
  }

  ghost predicate HeartbeatDoes(db: Db, queue: string, id: string, token: string, extendMs: nat, after: Db) {
    if !Holds(db, queue, id, token) then after == db
    else Written(db, after, id, db.runs[id].(expiresAt := Some(db.now + extendMs)), db.tasks[db.runs[id].taskId])
  }

  ghost predicate ExpireDoes(db: Db, queue: string, id: string, token: string, after: Db) {
    if !Holds(db, queue, id, token) || db.runs[id].expiresAt.None? || db.runs[id].expiresAt.value <= db.now then after == db
    else Written(db, after, id, db.runs[id].(expiresAt := Some(db.now)), db.tasks[db.runs[id].taskId])
  }

  ghost predicate CheckpointDoes(db: Db, queue: string, id: string, token: string, extendMs: nat, owed: bool, after: Db) {
    if !Holds(db, queue, id, token) then after == db
    else Written(db, after, id, db.runs[id].(expiresAt := Some(db.now + extendMs)),
                 db.tasks[db.runs[id].taskId].(rollbackOwed := owed))
  }

  ghost predicate SuspendDoes(db: Db, queue: string, id: string, token: string, wakeAt: int, marker: bool, after: Db) {
    if !Holds(db, queue, id, token) || Overdue(db.tasks[db.runs[id].taskId], db.now)
       || (marker && db.tasks[db.runs[id].taskId].saga.Some?)
    then after == db
    else
      var state := if db.now < wakeAt then Sleeping else Pending;
      Written(db, after, id,
              db.runs[id].(state := state, availableAt := Some(wakeAt), claimedBy := None, expiresAt := None,
                           wakeEvent := None, wakeStep := None, eventPayload := None),
              db.tasks[db.runs[id].taskId].(state := state))
  }

  ghost predicate DeferDoes(db: Db, queue: string, id: string, token: string, gen: nat, wakeAt: int, after: Db) {
    if !Unstarted(db, queue, id, token, gen) then after == db
    else
      var state := if db.now < wakeAt then Sleeping else Pending;
      Written(db, after, id, db.runs[id].(state := state, availableAt := Some(wakeAt), claimedBy := None, expiresAt := None),
              db.tasks[db.runs[id].taskId].(state := state))
  }

  /** A completion stores what it was given. */
  ghost predicate CompleteDoes(db: Db, queue: string, id: string, token: string, result: string, after: Db) {
    if !Holds(db, queue, id, token) || db.tasks[db.runs[id].taskId].saga.Some? then after == db
    else
      var taskId := db.runs[id].taskId;
      Finishes(db, after, taskId, db.tasks[taskId].(state := Completed, result := Some(result), cancelAt := None),
               Outcome(Completed, Some(result), None))
  }

  /** At a cap, and past a budget: a rollback that is owed and never began runs once, or the task fails. */
  ghost predicate GivesUp(db: Db, after: Db, id: string, nextId: string, reason: string, charged: nat)
    requires id in db.runs && db.runs[id].taskId in db.tasks
  {
    var task := db.tasks[db.runs[id].taskId];
    if task.rollbackOwed && task.saga.None?
    then TriedAgain(db, after, id, nextId, db.now,
                    task.(state := Pending, attempts := task.attempts + 1, maxAttempts := task.attempts + 2, saga := Some(reason)))
    else Finishes(db, after, db.runs[id].taskId,
                  task.(state := Failed, attempts := task.attempts + charged, reason := Some(reason)),
                  Outcome(Failed, None, Some(reason)))
  }

  /** A failure charges the task an attempt, whatever follows it. */
  ghost predicate FailDoes(db: Db, f: Protocol.Failure, after: Db) {
    if !Holds(db, f.queue, f.runId, f.token) || f.nextId in db.runs
       || (f.rollback && db.tasks[db.runs[f.runId].taskId].saga.None?)
    then after == db
    else
      var taskId := db.runs[f.runId].taskId;
      var task := db.tasks[taskId];
      if f.retryMs.Some? && (f.rollback || task.attempts + 1 < task.maxAttempts) then
        TriedAgain(db, after, f.runId, f.nextId, db.now + f.retryMs.value,
                   task.(state := if f.retryMs.value == 0 then Pending else Sleeping, attempts := task.attempts + 1,
                         maxAttempts := if f.rollback then task.attempts + 2 else task.maxAttempts))
      else if f.rollback then
        Finishes(db, after, taskId, task.(state := Failed, attempts := task.attempts + 1, reason := Some(f.reason)),
                 Outcome(Failed, None, Some(f.reason)))
      else GivesUp(db, after, f.runId, f.nextId, f.reason, 1)
  }

  /** A lost launch is tried again under its own ordinal five times, each five seconds later than the last. */
  ghost predicate LaunchSweepDoes(db: Db, queue: string, id: string, gen: nat, passId: string, after: Db) {
    if !RanOut(db, queue, id, gen) || db.runs[id].activatedGen >= gen || passId in db.runs then after == db
    else if db.runs[id].relaunches < 5 then
      Written(db, after, id,
              db.runs[id].(state := Pending, availableAt := Some(db.now + 5_000 * (db.runs[id].relaunches + 1)),
                           relaunches := db.runs[id].relaunches + 1, claimedBy := None, expiresAt := None),
              db.tasks[db.runs[id].taskId].(state := Pending))
    else GivesUp(db, after, id, passId, "{\"name\":\"$RelaunchCapExhausted\"}", 0)
  }

  /** A started claim that ran out is followed by another attempt twenty times, at no charge. */
  ghost predicate ClaimSweepDoes(db: Db, queue: string, id: string, gen: nat, nextId: string, after: Db) {
    if !RanOut(db, queue, id, gen) || db.runs[id].activatedGen != gen || nextId in db.runs then after == db
    else
      var task := db.tasks[db.runs[id].taskId];
      if task.infraRetries < 20 then
        TriedAgain(db, after, id, nextId, db.now + 5_000, task.(state := Pending, infraRetries := task.infraRetries + 1))
      else GivesUp(db, after, id, nextId, "{\"name\":\"$InfraRetriesExhausted\"}", 0)
  }

  ghost predicate CancelDoes(db: Db, queue: string, taskId: string, deadlineOnly: bool, unlessSaga: bool, after: Db) {
    if !(taskId in db.tasks && db.tasks[taskId].queue == queue && InProgress(db.tasks[taskId].state)
         && (deadlineOnly ==> Overdue(db.tasks[taskId], db.now)) && (unlessSaga ==> db.tasks[taskId].saga.None?))
    then after == db
    else
      Finishes(db, after, taskId,
               db.tasks[taskId].(state := Cancelled, cancelAt := None, reason := Some("{\"name\":\"$Cancelled\"}")),
               Outcome(Cancelled, None, Some("{\"name\":\"$Cancelled\"}")))
  }

  /** `top` is the run of the task's last attempt. */
  predicate IsLast(db: Db, taskId: string, top: string) {
    && top in db.runs && db.runs[top].taskId == taskId
    && forall id :: id in db.runs && db.runs[id].taskId == taskId ==> db.runs[id].attempt <= db.runs[top].attempt
  }

  /** A revival charges the task for all but its infrastructure retries, and gives it room for one attempt. */
  ghost predicate ReviveDoes(db: Db, queue: string, taskId: string, top: string, runId: string, after: Db) {
    if !(taskId in db.tasks && db.tasks[taskId].queue == queue && db.tasks[taskId].state == Failed
         && db.tasks[taskId].saga.None? && IsLast(db, taskId, top) && runId !in db.runs)
    then after == db
    else
      var task := db.tasks[taskId];
      && task.infraRetries <= db.runs[top].attempt
      && Only(db, after, {taskId}, {runId}) && after.waits == db.waits && after.events == db.events
      && Bare(after.runs[runId]) == NextAttempt(db.runs[top], Pending, db.now)
      && BareTask(after.tasks[taskId])
         == BareTask(task.(state := Pending, attempts := db.runs[top].attempt - task.infraRetries,
                           maxAttempts := task.maxAttempts + 1, reason := None))
  }

  ghost predicate EmitDoes(db: Db, queue: string, name: string, text: string, after: Db) {
    && Happens(db, after, (queue, FromPort(name)), Json(text))
    && Tells(db, after, queue, FromPort(name), Json(text), {})
  }

  ghost predicate AwaitDoes(db: Db, a: Protocol.Await, name: EventName, timeoutMs: Option<nat>, after: Db) {
    if !MayWait(db, a, name) then after == db
    else
      var until := if timeoutMs.Some? then Some(db.now + timeoutMs.value) else None;
      && Only(db, after, {a.taskId}, {a.runId}) && after.events == db.events
      && Bare(after.runs[a.runId])
         == Bare(db.runs[a.runId].(state := Sleeping, availableAt := until, claimedBy := None, expiresAt := None,
                                   wakeEvent := Some(name), wakeStep := Some(a.step), eventPayload := None))
      && BareTask(after.tasks[a.taskId]) == BareTask(db.tasks[a.taskId].(state := Sleeping))
      && after.waits.Keys == db.waits.Keys + {(a.runId, a.step)} && (a.runId, a.step) !in db.waits
      && (forall key :: key in db.waits ==> after.waits[key] == db.waits[key])
      && after.waits[(a.runId, a.step)].(stamp := Unstamped) == Wait(a.queue, a.taskId, name, until, Unstamped)
  }

  /** The record is of the ending the child's row stands at. */
  ghost predicate RecordDoes(w: World, a: Protocol.Await, read: Read, after: Db) {
    var db := w.db;
    var child := read.child;
    if !(read in w.seen && !InProgress(read.outcome.state) && child in db.tasks && db.tasks[child].stamp == read.stamp
         && (db.tasks[child].queue, TaskDone(child)) !in db.events
         && Holds(db, a.queue, a.runId, a.token) && db.runs[a.runId].taskId == a.taskId)
    then after == db
    else
      && Only(db, after, {}, {}) && after.waits == db.waits && !InProgress(db.tasks[child].state)
      && Happens(db, after, (db.tasks[child].queue, TaskDone(child)),
                 Encoded(Outcome(db.tasks[child].state, db.tasks[child].result, db.tasks[child].reason)))
  }

  /** An older build ends a task nobody waits for, and tells nobody. */
  ghost predicate OlderDoes(db: Db, taskId: string, state: State, text: string, after: Db) {
    if !(taskId in db.tasks && InProgress(db.tasks[taskId].state) && !InProgress(state)
         && forall key :: key in db.waits ==> db.waits[key].event != TaskDone(taskId))
    then after == db
    else
      var task := db.tasks[taskId];
      && after.now == db.now && after.events == db.events
      && after.tasks.Keys == db.tasks.Keys && after.runs.Keys == db.runs.Keys
      && (forall other :: other in db.tasks && other != taskId ==> after.tasks[other] == db.tasks[other])
      && BareTask(after.tasks[taskId]) == BareTask(
           if state == Completed then task.(state := Completed, result := Some(text), cancelAt := None)
           else if state == Failed then task.(state := Failed, reason := Some(text))
           else task.(state := Cancelled, cancelAt := None, reason := Some("{\"name\":\"$Cancelled\"}")))
      && (forall id :: id in db.runs ==>
            if db.runs[id].taskId == taskId && InProgress(db.runs[id].state) then Over(db.runs[id], after.runs[id], state)
            else after.runs[id] == db.runs[id])
      && after.waits == map key | key in db.waits && db.waits[key].taskId != taskId :: db.waits[key]
  }

  /** What the step does to the rows it finds. */
  ghost predicate Does(w: World, step: Step, after: Db) {
    var db := w.db;
    match step
    case Tick(ms) => after == db.(now := db.now + ms)
    case Spawns(s) => SpawnDoes(db, s, after)
    case Claims(queue, token, leaseMs, limit, picked) => ClaimDoes(db, queue, token, leaseMs, limit, picked, after)
    case Activates(queue, id, token, gen) => ActivateDoes(db, queue, id, token, gen, after)
    case Heartbeats(queue, id, token, extendMs) => HeartbeatDoes(db, queue, id, token, extendMs, after)
    case Expires(queue, id, token) => ExpireDoes(db, queue, id, token, after)
    case Checkpoints(queue, id, token, extendMs, owed) => CheckpointDoes(db, queue, id, token, extendMs, owed, after)
    case Suspends(queue, id, token, wakeAt, marker) => SuspendDoes(db, queue, id, token, wakeAt, marker, after)
    case Defers(queue, id, token, gen, wakeAt) => DeferDoes(db, queue, id, token, gen, wakeAt, after)
    case Completes(queue, id, token, result) => CompleteDoes(db, queue, id, token, result, after)
    case Fails(f) => FailDoes(db, f, after)
    case SweepsLaunch(queue, id, gen, passId) => LaunchSweepDoes(db, queue, id, gen, passId, after)
    case SweepsClaim(queue, id, gen, nextId) => ClaimSweepDoes(db, queue, id, gen, nextId, after)
    case Cancels(queue, taskId, deadlineOnly, unlessSaga) => CancelDoes(db, queue, taskId, deadlineOnly, unlessSaga, after)
    case Revives(queue, taskId, top, runId) => ReviveDoes(db, queue, taskId, top, runId, after)
    case Emits(queue, name, text) => EmitDoes(db, queue, name, text, after)
    case Awaits(a, event, timeoutMs) => AwaitDoes(db, a, event, timeoutMs, after)
    case Reads(child) => after == db
    case Records(a, read) => RecordDoes(w, a, read, after)
    case OlderBuild(taskId, state, text) => OlderDoes(db, taskId, state, text, after)
  }
}
