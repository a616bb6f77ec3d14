/**
 * The rollback pass a terminal failure is owed, as the statements of `fail`, `fail-rollback`
 * and the two sweeps place it: each batch names the fence its compare-and-set left.
 */
module SagaPass {
  import opened Options
  import opened Tables
  import opened Protocol
  import opened Statements

  /** The next run's identity is taken: by id, task and ordinal, which a stamp's decay cannot undo. */
  predicate SuccessorOwned(db: Db, id: string, run: Run) {
    id in db.runs && db.runs[id].taskId == run.taskId && db.runs[id].attempt == run.attempt + 1
  }

  /** The run this batch failed, and its task is still live. */
  predicate FailedUnder(db: Db, id: string, fence: Stamp) {
    Stamped(db, id, fence) && Owns(db, db.runs[id]) && db.tasks[db.runs[id].taskId].state.Live()
  }

  /** What a rollback pass asks of the task: to enter the saga, or to try a failed rollback again. */
  predicate PassAdmits(task: Task, run: Run, f: Failure) {
    if f.rollback then f.retryMs.Some?
    else EntersSaga(task) && (f.retryMs.Some? ==> UserAttempts(run, task) >= task.maxAttempts)
  }

  function PassDelay(f: Failure): nat {
    if f.rollback then FailDelay(f) else 0
  }

  function AtOnce(delay: nat): State {
    if delay == 0 then Pending else Sleeping
  }

  /** `rollback-pass`. */
  function PassInserted(db: Db, f: Failure, fence: Stamp, seed: nat): map<string, Run> {
    if FailedUnder(db, f.runId, fence)
       && PassAdmits(db.tasks[db.runs[f.runId].taskId], db.runs[f.runId], f)
       && !SuccessorOwned(db, f.nextId, db.runs[f.runId])
    then db.runs[f.nextId := Successor(db.runs[f.runId], AtOnce(PassDelay(f)), db.now + PassDelay(f),
                                       By(seed, "rollback-pass"))]
    else db.runs
  }

  predicate PassOfThis(db: Db, f: Failure, seed: nat) {
    Stamped(db, f.nextId, By(seed, "rollback-pass")) && db.runs[f.nextId].taskId in db.tasks && f.runId in db.runs
  }

  /** `rolling-back`: the phase marker, which only the batch that enters the phase writes. */
  function PhaseMarked(db: Db, f: Failure, seed: nat): map<string, Task> {
    if PassOfThis(db, f, seed) && !f.rollback
    then db.tasks[db.runs[f.nextId].taskId := db.tasks[db.runs[f.nextId].taskId].(saga := Some(f.reason))]
    else db.tasks
  }

  /** `task-rolling-back`. */
  function TaskRollingBack(db: Db, f: Failure, seed: nat): map<string, Task> {
    if PassOfThis(db, f, seed) && db.tasks[db.runs[f.nextId].taskId].state.Live()
    then db.tasks[db.runs[f.nextId].taskId :=
                    RollingBack(db.tasks[db.runs[f.nextId].taskId], db.runs[f.runId], db.runs[f.nextId].state, seed)]
    else db.tasks
  }

  /** The three in order. */
  function SagaArm(db: Db, f: Failure, fence: Stamp, seed: nat): Db {
    var placed := db.(runs := PassInserted(db, f, fence, seed));
    var marked := placed.(tasks := PhaseMarked(placed, f, seed));
    marked.(tasks := TaskRollingBack(marked, f, seed))
  }

  /** The rows after the compare-and-set: the run closed under this batch's stamp, and nothing else moved. */
  ghost predicate JustClosed(db: Db, closed: Db, f: Failure, how: Closing) {
    && f.runId in db.runs && Owns(db, db.runs[f.runId]) && f.nextId !in db.runs && !how.clearsWake
    && closed == db.(runs := db.runs[f.runId := Close(db.runs[f.runId], how)])
    && db.tasks[db.runs[f.runId].taskId].state.Live()
  }

  lemma NoSagaArm(db: Db, closed: Db, f: Failure, how: Closing, seed: nat)
    requires JustClosed(db, closed, f, how)
    requires !PassAdmits(db.tasks[db.runs[f.runId].taskId], db.runs[f.runId], f)
    ensures SagaArm(closed, f, how.stamp, seed) == closed
  {
  }

  lemma SagaArmPlaces(db: Db, closed: Db, f: Failure, how: Closing, seed: nat)
    requires JustClosed(db, closed, f, how) && PassAdmits(db.tasks[db.runs[f.runId].taskId], db.runs[f.runId], f)
    ensures var run := db.runs[f.runId]; var task := db.tasks[run.taskId];
      SagaArm(closed, f, how.stamp, seed)
      == closed.(runs := closed.runs[f.nextId := Successor(run, AtOnce(PassDelay(f)), db.now + PassDelay(f),
                                                           By(seed, "rollback-pass"))],
                 tasks := db.tasks[run.taskId := RollingBack(task.(saga := if f.rollback then task.saga else Some(f.reason)),
                                                             run, AtOnce(PassDelay(f)), seed)])
  {
  }

  /** A batch that finds its successor placed, and no pass under its stamp or only its own unmoved, places nothing. */
  lemma SagaArmYields(db: Db, f: Failure, fence: Stamp, seed: nat)
    requires f.runId in db.runs
    requires FailedUnder(db, f.runId, fence) ==> SuccessorOwned(db, f.nextId, db.runs[f.runId])
    requires PassOfThis(db, f, seed) ==> PassStands(db, f, seed)
    ensures SagaArm(db, f, fence, seed) == db
  {
    assert PassInserted(db, f, fence, seed) == db.runs;
    assert PhaseMarked(db, f, seed) == db.tasks;
  }

  /** The pass's task is as the batch left it. */
  predicate PassStands(db: Db, f: Failure, seed: nat)
    requires PassOfThis(db, f, seed)
  {
    var task := db.tasks[db.runs[f.nextId].taskId];
    && task.attempts == UserAttempts(db.runs[f.runId], task) && task.maxAttempts == task.attempts + 1
    && task.state == db.runs[f.nextId].state && task.stamp == By(seed, "task-rolling-back")
    && (f.rollback || task.saga == Some(f.reason))
  }
}
