/**
 * What crossing each cap leaves: a failure, a lost launch and a timed out claim, below their
 * caps and at them, with a saga to enter and without one.
 */
module CapCrossings {
  import opened Options
  import opened Tables
  import opened Protocol
  import opened ProtocolInvariant
  import opened ProtocolSteps

  /** No row of another task changes, and of this task's runs these alone may. */
  ghost predicate OnlyThese(db: Db, after: Db, taskId: string, ids: set<string>) {
    && after.now == db.now && after.events == db.events
    && after.tasks.Keys == db.tasks.Keys && after.runs.Keys == db.runs.Keys + ids
    && (forall other :: other in db.tasks && other != taskId ==> after.tasks[other] == db.tasks[other])
    && (forall id :: id in db.runs && id !in ids ==> after.runs[id] == db.runs[id])
  }

  /** The run failed under the claim it had, and nobody holds it. */
  predicate RunFailed(run: Run, after: Run) {
    && after.state == Failed && after.claimedBy.None?
    && after.taskId == run.taskId && after.queue == run.queue && after.attempt == run.attempt
    && after.claimGen == run.claimGen && after.activatedGen == run.activatedGen && after.relaunches == run.relaunches
  }

  /** The one successor of the run: never claimed, one ordinal up, due when it says. */
  predicate Succeeds(run: Run, next: Run, state: State, due: int) {
    && next.taskId == run.taskId && next.queue == run.queue && next.attempt == run.attempt + 1
    && next.state == state && next.availableAt == Some(due)
    && next.claimedBy.None? && next.claimGen == 0 && next.activatedGen == 0 && next.relaunches == 0
    && next.wakeEvent == run.wakeEvent && next.wakeStep == run.wakeStep && next.eventPayload == run.eventPayload
  }

  /** The next attempt takes the run's place, the task's books as given. */
  ghost predicate Retried(db: Db, after: Db, id: string, nextId: string, state: State, due: int, attempts: nat,
                          maxAttempts: nat, infraRetries: nat, saga: Option<string>)
    requires id in db.runs && Owns(db, db.runs[id])
  {
    var run := db.runs[id];
    && OnlyThese(db, after, run.taskId, {id, nextId}) && RunFailed(run, after.runs[id])
    && Succeeds(run, after.runs[nextId], state, due)
    && var task := after.tasks[run.taskId];
    && task.state == state && task.attempts == attempts && task.maxAttempts == maxAttempts
    && task.infraRetries == infraRetries && task.saga == saga && task.result.None? && task.reason.None?
  }

  /** The task failed for the reason, with no run after this one, and whoever awaits it can read that it did. */
  ghost predicate EndedFailed(db: Db, after: Db, id: string, reason: string, attempts: nat)
    requires id in db.runs && Owns(db, db.runs[id])
  {
    var run := db.runs[id];
    var key := (run.queue, TaskDone(run.taskId));
    && after.now == db.now && after.runs.Keys == db.runs.Keys && after.tasks.Keys == db.tasks.Keys
    && RunFailed(run, after.runs[id])
    && (forall other :: !LiveRunOf(after, other, run.taskId))
    && (var task := after.tasks[run.taskId];
        && task.state == Failed && task.reason == Some(reason) && task.attempts == attempts
        && task.maxAttempts == db.tasks[run.taskId].maxAttempts && task.infraRetries == db.tasks[run.taskId].infraRetries)
    && after.events.Keys == db.events.Keys + {key}
    && (forall other :: other in db.events ==> after.events[other] == db.events[other])
    && (key !in db.events ==> after.events[key].payload == Encoded(Outcome(Failed, None, Some(reason))))
  }

  lemma SucceedIs(db: Db, older: set<string>, id: string, next: Task, how: Closing, nextId: string, run: Run)
    requires Inv(db, older) && id in db.runs && db.runs[id].state == Running && nextId !in db.runs
    ensures var after := Succeed(db, db.runs[id].taskId, next, how, nextId, run);
      && OnlyThese(db, after, db.runs[id].taskId, {id, nextId}) && after.tasks[db.runs[id].taskId] == next
      && after.runs[id] == Close(db.runs[id], how) && after.runs[nextId] == run
  {
    forall other | other in db.runs && LiveRunOf(db, other, db.runs[id].taskId) ensures other == id {
      OnlyLiveRun(db, id, other);
    }
  }

  lemma SucceedRetries(db: Db, older: set<string>, id: string, next: Task, how: Closing, nextId: string, due: int, stamp: Stamp,
                       seed: nat)
    requires Inv(db, older) && id in db.runs && db.runs[id].state == Running && nextId !in db.runs
    requires how.state == Failed && !how.clearsWake && next.state.Live()
    requires next.result == db.tasks[db.runs[id].taskId].result && next.reason == db.tasks[db.runs[id].taskId].reason
    ensures Retried(db, Succeed(db, db.runs[id].taskId, next, how, nextId, Successor(db.runs[id], next.state, due, stamp)),
                    id, nextId, next.state, due, next.attempts, next.maxAttempts, next.infraRetries, next.saga)
  {
    SucceedIs(db, older, id, next, how, nextId, Successor(db.runs[id], next.state, due, stamp));
    assert db.tasks[db.runs[id].taskId].state.Live();
  }

  lemma TimeoutRetriesCross(db: Db, older: set<string>, id: string, nextId: string, how: Closing, seed: nat)
    requires Inv(db, older) && id in db.runs && db.runs[id].state == Running && nextId !in db.runs
    requires Owns(db, db.runs[id]) && Accounted(db.runs[id], db.tasks[db.runs[id].taskId])
    requires how.state == Failed && !how.clearsWake
    ensures var task := db.tasks[db.runs[id].taskId];
      Retried(db, TimeoutRetries(db, id, nextId, how, seed), id, nextId, Pending, db.now + INFRA_BACKOFF_MS, task.attempts,
              task.maxAttempts, task.infraRetries + 1, task.saga)
  {
    hide Inv, Retried, Succeed, TimeoutRetries;
    var next, successor := TimeoutRetriesWrites(db, id, nextId, how, seed);
    SucceedRetries(db, older, id, next, how, nextId, db.now + INFRA_BACKOFF_MS, By(seed, "successor"), seed);
  }

  /** A claim that timed out: an infrastructure retry below the cap, and at it the saga or the end. */
  lemma ClaimTimeoutCrosses(db: Db, older: set<string>, queue: string, id: string, gen: nat, nextId: string, seed: nat)
    requires Inv(db, older) && Swept(db, queue, id, gen) && db.runs[id].activatedGen == gen && nextId !in db.runs
    ensures var after := SweepClaimTimeout(db, queue, id, gen, nextId, seed);
      var task := db.tasks[db.runs[id].taskId];
      && (task.infraRetries < INFRA_RETRY_CAP ==>
            Retried(db, after, id, nextId, Pending, db.now + INFRA_BACKOFF_MS, task.attempts, task.maxAttempts,
                    task.infraRetries + 1, task.saga))
      && (task.infraRetries >= INFRA_RETRY_CAP && EntersSaga(task) ==>
            Retried(db, after, id, nextId, Pending, db.now, task.attempts + 1, task.attempts + 2, task.infraRetries,
                    Some(REASON_INFRA_CAP)))
      && (task.infraRetries >= INFRA_RETRY_CAP && !EntersSaga(task) ==>
            EndedFailed(db, after, id, REASON_INFRA_CAP, task.attempts))
  {
    hide Retried, EndedFailed, AtCap, TimeoutRetries, EntersSaga, Awaited, Manned, Numbered, Settled, Mirrored, RunFits;
    var task := db.tasks[db.runs[id].taskId];
    var how := Closing(Failed, false, false, By(seed, "fail"));
    assert task.infraRetries <= INFRA_RETRY_CAP && db.runs[id].state == Running;
    if task.infraRetries < INFRA_RETRY_CAP {
      TimeoutRetriesCross(db, older, id, nextId, how, seed);
    } else {
      AtCapCrosses(db, older, id, nextId, REASON_INFRA_CAP, how, By(seed, "task-terminal"), seed);
    }
  }

  /** At a cap: the saga is entered with room for its one pass, or the task ends uncharged for the run. */
  lemma AtCapCrosses(db: Db, older: set<string>, id: string, passId: string, reason: string, how: Closing, terminal: Stamp,
                     seed: nat)
    requires Inv(db, older) && id in db.runs && db.runs[id].state == Running && passId !in db.runs
    requires how.state == Failed && !how.clearsWake
    ensures var after := AtCap(db, id, passId, reason, how, terminal, seed);
      var task := db.tasks[db.runs[id].taskId];
      && (EntersSaga(task) ==>
            Retried(db, after, id, passId, Pending, db.now, task.attempts + 1, task.attempts + 2, task.infraRetries, Some(reason)))
      && (!EntersSaga(task) ==> EndedFailed(db, after, id, reason, task.attempts))
  {
    hide Succeed, EndTask, Successor, Retried, EndedFailed, Awaited, Manned, Settled;
    LiveRunIsTop(db, id);
    var run := db.runs[id];
    var task := db.tasks[run.taskId];
    assert UserAttempts(run, task) == task.attempts + 1;
    if EntersSaga(task) {
      var next := RollingBack(task.(saga := Some(reason)), run, Pending, seed);
      SucceedRetries(db, older, id, next, how, passId, db.now, By(seed, "rollback-pass"), seed);
    } else {
      EndIs(db, older, id, task.(state := Failed, reason := Some(reason), stamp := terminal), how, reason, task.attempts, seed);
    }
  }

  lemma EndIs(db: Db, older: set<string>, id: string, ended: Task, how: Closing, reason: string, attempts: nat, seed: nat)
    requires Inv(db, older) && id in db.runs && db.runs[id].state == Running && how.state == Failed && !how.clearsWake
    requires var task := db.tasks[db.runs[id].taskId];
      ended == task.(attempts := attempts, state := Failed, reason := Some(reason), stamp := ended.stamp)
    ensures EndedFailed(db, EndTask(db, db.runs[id].taskId, ended, how, seed), id, reason, attempts)
  {
    var taskId := db.runs[id].taskId;
    assert LiveRunOf(db, id, taskId) && db.tasks[taskId].state.Live() && db.tasks[taskId].result.None?;
    EndTaskFails(db, taskId, id, ended, how, seed);
  }

  /** A wake changes nothing of a task with no live run. */
  lemma WakeSparesEnded(db: Db, queue: string, name: EventName, seed: nat, taskId: string)
    requires (queue, name) in db.events && taskId in db.tasks && forall other :: !LiveRunOf(db, other, taskId)
    ensures var after := Wake(db, queue, name, seed);
      && after.now == db.now && after.runs.Keys == db.runs.Keys && after.tasks.Keys == db.tasks.Keys
      && after.tasks[taskId] == db.tasks[taskId]
      && (forall id :: id in db.runs && db.runs[id].taskId == taskId ==> after.runs[id] == db.runs[id])
      && forall other :: !LiveRunOf(after, other, taskId)
  {
    forall id | id in Woken(db, queue, name) ensures db.runs[id].taskId != taskId {
      assert !LiveRunOf(db, id, taskId);
    }
    forall other ensures !LiveRunOf(Wake(db, queue, name, seed), other, taskId) {
      assert !LiveRunOf(db, other, taskId);
    }
  }

  lemma EndedClosesAll(db: Db, taskId: string, id: string, ended: Task, how: Closing)
    requires LiveRunOf(db, id, taskId) && taskId in db.tasks && how.state == Failed
    ensures var closed := Ended(db, taskId, ended, how);
      && closed.now == db.now && closed.runs.Keys == db.runs.Keys && closed.tasks.Keys == db.tasks.Keys
      && closed.tasks[taskId] == ended && closed.runs[id] == Close(db.runs[id], how) && closed.events == db.events
      && forall other :: !LiveRunOf(closed, other, taskId)
  {
  }

  lemma EndTaskCloses(db: Db, taskId: string, id: string, ended: Task, how: Closing, seed: nat)
    requires LiveRunOf(db, id, taskId) && taskId in db.tasks && how.state == Failed
    ensures var after := EndTask(db, taskId, ended, how, seed);
      && after.now == db.now && after.runs.Keys == db.runs.Keys && after.tasks.Keys == db.tasks.Keys
      && after.runs[id] == Close(db.runs[id], how) && after.tasks[taskId] == ended
      && forall other :: !LiveRunOf(after, other, taskId)
  {
    hide CloseRuns, Wake;
    EndedClosesAll(db, taskId, id, ended, how);
    var closed := Ended(db, taskId, ended, how);
    var key := (ended.queue, TaskDone(taskId));
    if key !in db.events {
      var stored := Store(closed, key, Event(Encoded(OutcomeOf(ended)), closed.now, By(seed, "task-done")));
      forall other ensures !LiveRunOf(stored, other, taskId) {
        assert !LiveRunOf(closed, other, taskId);
      }
      WakeSparesEnded(stored, ended.queue, TaskDone(taskId), seed, taskId);
    }
  }

  lemma EndTaskStores(db: Db, taskId: string, ended: Task, how: Closing, seed: nat)
    ensures var after := EndTask(db, taskId, ended, how, seed);
      var key := (ended.queue, TaskDone(taskId));
      && after.events.Keys == db.events.Keys + {key} && (forall other :: other in db.events ==> after.events[other] == db.events[other])
      && (key !in db.events ==> after.events[key].payload == Encoded(OutcomeOf(ended)))
  {
    hide Woken, Close;
  }

  lemma EndTaskFails(db: Db, taskId: string, id: string, ended: Task, how: Closing, seed: nat)
    requires LiveRunOf(db, id, taskId) && taskId in db.tasks && ended.queue == db.tasks[taskId].queue == db.runs[id].queue
    requires ended.state == Failed && ended.reason.Some? && ended.result.None? && how.state == Failed && !how.clearsWake
    requires ended.maxAttempts == db.tasks[taskId].maxAttempts && ended.infraRetries == db.tasks[taskId].infraRetries
    ensures EndedFailed(db, EndTask(db, taskId, ended, how, seed), id, ended.reason.value, ended.attempts)
  {
    hide EndTask;
    EndTaskCloses(db, taskId, id, ended, how, seed);
    EndTaskStores(db, taskId, ended, how, seed);
  }

  /** A launch that was lost: the same run again below the cap, and at it the saga or the end. */
  lemma LostLaunchCrosses(db: Db, older: set<string>, queue: string, id: string, gen: nat, passId: string, seed: nat)
    requires Inv(db, older) && Swept(db, queue, id, gen) && db.runs[id].activatedGen < gen && passId !in db.runs
    ensures var after := SweepLostLaunch(db, queue, id, gen, passId, seed);
      var run := db.runs[id];
      var task := db.tasks[run.taskId];
      && (run.relaunches < RELAUNCH_CAP ==> Reopened(db, after, id))
      && (run.relaunches >= RELAUNCH_CAP && EntersSaga(task) ==>
            Retried(db, after, id, passId, Pending, db.now, task.attempts + 1, task.attempts + 2, task.infraRetries,
                    Some(REASON_RELAUNCH_CAP)))
      && (run.relaunches >= RELAUNCH_CAP && !EntersSaga(task) ==>
            EndedFailed(db, after, id, REASON_RELAUNCH_CAP, task.attempts))
  {
    hide AtCap, EndedFailed, Retried, EntersSaga, Awaited, Manned, Numbered, Settled;
    if db.runs[id].relaunches >= RELAUNCH_CAP {
      AtCapCrosses(db, older, id, passId, REASON_RELAUNCH_CAP, Closing(Failed, false, true, By(seed, "cap")),
                   By(seed, "task-fail"), seed);
    }
  }

  /** The run waits to be claimed again under its own ordinal, one relaunch spent and no counter charged. */
  ghost predicate Reopened(db: Db, after: Db, id: string)
    requires id in db.runs && Owns(db, db.runs[id])
  {
    var run := db.runs[id];
    && OnlyThese(db, after, run.taskId, {id}) && after.waits == db.waits
    && (var again := after.runs[id];
        && again.state == Pending && again.claimedBy.None? && again.relaunches == run.relaunches + 1
        && again.availableAt.Some? && db.now < again.availableAt.value <= db.now + 60_000
        && again.taskId == run.taskId && again.queue == run.queue && again.attempt == run.attempt
        && again.claimGen == run.claimGen && again.activatedGen == run.activatedGen
        && again.wakeEvent == run.wakeEvent && again.wakeStep == run.wakeStep && again.eventPayload == run.eventPayload)
    && var task, was := after.tasks[run.taskId], db.tasks[run.taskId];
    && task.state == Pending && task.attempts == was.attempts && task.maxAttempts == was.maxAttempts
    && task.infraRetries == was.infraRetries && task.saga == was.saga
  }

  /**
   * A failure charges one attempt. A user's retry follows while the budget has room, and past
   * it the saga is entered, or the task ends. A failed rollback is retried past any budget,
   * which goes up with it.
   */
  lemma FailureCrosses(db: Db, older: set<string>, f: Failure, seed: nat)
    requires Inv(db, older) && FailAdmits(db, f)
    ensures var after := Fail(db, f, seed);
      var task := db.tasks[db.runs[f.runId].taskId];
      var delay := FailDelay(f);
      var state := if delay == 0 then Pending else Sleeping;
      var retries := f.retryMs.Some? && (f.rollback || task.attempts + 1 < task.maxAttempts);
      && (retries ==>
            Retried(db, after, f.runId, f.nextId, state, db.now + delay, task.attempts + 1,
                    if f.rollback then task.attempts + 2 else task.maxAttempts, task.infraRetries, task.saga))
      && (!retries && !f.rollback && EntersSaga(task) ==>
            Retried(db, after, f.runId, f.nextId, Pending, db.now, task.attempts + 1, task.attempts + 2, task.infraRetries,
                    Some(f.reason)))
      && (!retries && (f.rollback || !EntersSaga(task)) ==>
            EndedFailed(db, after, f.runId, f.reason, task.attempts + 1))
  {
    hide *;
    FailureIs(db, older, f, seed);
    OwnedTask(db, f.runId);
    match AfterFailure(db.tasks[db.runs[f.runId].taskId], db.runs[f.runId], f)
    case Retries => UserRetryCrosses(db, older, f, seed);
    case RollsBack(enters) => RollbackCrosses(db, older, f, enters, seed);
    case EndsTask => EndCrosses(db, older, f, seed);
  }

  /** What decides a failure, said of the counters. */
  lemma FailureIs(db: Db, older: set<string>, f: Failure, seed: nat)
    requires Inv(db, older) && FailAdmits(db, f)
    ensures f.runId in db.runs && Owns(db, db.runs[f.runId]) && f.nextId !in db.runs && db.runs[f.runId].state == Running
    ensures UserAttempts(db.runs[f.runId], db.tasks[db.runs[f.runId].taskId]) == db.tasks[db.runs[f.runId].taskId].attempts + 1
    ensures var task := db.tasks[db.runs[f.runId].taskId];
      var retries := f.retryMs.Some? && (f.rollback || task.attempts + 1 < task.maxAttempts);
      match AfterFailure(task, db.runs[f.runId], f)
      case Retries => retries && !f.rollback && Fail(db, f, seed) == FailRetries(db, f, seed)
      case RollsBack(enters) =>
        && enters == (!retries && EntersSaga(task)) && enters == !f.rollback && (enters || retries)
        && Fail(db, f, seed) == FailRollsBack(db, f, enters, seed)
      case EndsTask => !retries && (f.rollback || !EntersSaga(task)) && Fail(db, f, seed) == FailEnds(db, f, seed)
  {
    LiveRunIsTop(db, f.runId);
    hide Inv, FailRetries, FailRollsBack, FailEnds;
  }

  lemma UserRetryCrosses(db: Db, older: set<string>, f: Failure, seed: nat)
    requires Inv(db, older) && f.runId in db.runs && Owns(db, db.runs[f.runId]) && f.nextId !in db.runs
    requires db.runs[f.runId].state == Running
    requires UserAttempts(db.runs[f.runId], db.tasks[db.runs[f.runId].taskId]) == db.tasks[db.runs[f.runId].taskId].attempts + 1
    ensures var task := db.tasks[db.runs[f.runId].taskId];
      Retried(db, FailRetries(db, f, seed), f.runId, f.nextId, if FailDelay(f) == 0 then Pending else Sleeping,
              db.now + FailDelay(f), task.attempts + 1, task.maxAttempts, task.infraRetries, task.saga)
  {
    hide *;
    var next, successor := FailRetriesWrites(db, f, seed);
    Waits(successor.state, seed);
    SucceedRetries(db, older, f.runId, next, FailClosing(seed), f.nextId, db.now + FailDelay(f), By(seed, "successor"), seed);
  }

  lemma Waits(state: State, seed: nat)
    requires state == Pending || state == Sleeping
    ensures state.Live() && FailClosing(seed).state == Failed && !FailClosing(seed).clearsWake
  {
  }

  lemma RollingBackIs(task: Task, run: Run, state: State, seed: nat)
    ensures var next := RollingBack(task, run, state, seed);
      && next.attempts == UserAttempts(run, task) && next.maxAttempts == next.attempts + 1 && next.state == state
      && next.infraRetries == task.infraRetries && next.saga == task.saga
      && next.result == task.result && next.reason == task.reason
  {
  }

  lemma RollbackCrosses(db: Db, older: set<string>, f: Failure, enters: bool, seed: nat)
    requires Inv(db, older) && f.runId in db.runs && Owns(db, db.runs[f.runId]) && f.nextId !in db.runs
    requires db.runs[f.runId].state == Running
    requires UserAttempts(db.runs[f.runId], db.tasks[db.runs[f.runId].taskId]) == db.tasks[db.runs[f.runId].taskId].attempts + 1
    ensures var task := db.tasks[db.runs[f.runId].taskId];
      Retried(db, FailRollsBack(db, f, enters, seed), f.runId, f.nextId,
              if enters || FailDelay(f) == 0 then Pending else Sleeping, db.now + (if enters then 0 else FailDelay(f)),
              task.attempts + 1, task.attempts + 2, task.infraRetries, if enters then Some(f.reason) else task.saga)
  {
    hide *;
    OwnedTask(db, f.runId);
    var saga, state, due := FailRollsBackWrites(db, f, enters, seed);
    var run := db.runs[f.runId];
    var task := db.tasks[run.taskId].(saga := saga);
    RollingBackIs(task, run, state, seed);
    SagaIsNotCounted(db.tasks[run.taskId], saga, run);
    Waits(state, seed);
    SucceedRetries(db, older, f.runId, RollingBack(task, run, state, seed), FailClosing(seed), f.nextId, due,
                   By(seed, "rollback-pass"), seed);
  }

  lemma OwnedTask(db: Db, id: string)
    requires id in db.runs && Owns(db, db.runs[id])
    ensures db.runs[id].taskId in db.tasks
  {
  }

  lemma SagaIsNotCounted(task: Task, saga: Option<string>, run: Run)
    ensures UserAttempts(run, task.(saga := saga)) == UserAttempts(run, task)
  {
  }

  lemma EndCrosses(db: Db, older: set<string>, f: Failure, seed: nat)
    requires Inv(db, older) && f.runId in db.runs && Owns(db, db.runs[f.runId]) && f.nextId !in db.runs
    requires db.runs[f.runId].state == Running
    requires UserAttempts(db.runs[f.runId], db.tasks[db.runs[f.runId].taskId]) == db.tasks[db.runs[f.runId].taskId].attempts + 1
    ensures EndedFailed(db, FailEnds(db, f, seed), f.runId, f.reason, db.tasks[db.runs[f.runId].taskId].attempts + 1)
  {
    hide Inv, EndedFailed, EndTask, Current;
    var task := db.tasks[db.runs[f.runId].taskId];
    var stamp := By(seed, if f.retryMs.Some? && !f.rollback then "task-terminal" else "task");
    EndIs(db, older, f.runId, task.(attempts := task.attempts + 1, state := Failed, reason := Some(f.reason), stamp := stamp),
          FailClosing(seed), f.reason, task.attempts + 1, seed);
  }
}
