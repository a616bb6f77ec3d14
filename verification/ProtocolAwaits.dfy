/** Awaits and completions: what a waiter can count on, in every history. */
module ProtocolAwaits {
  import opened Options
  import opened Tables
  import opened Protocol
  import opened ProtocolInvariant
  import opened ProtocolSteps
  import opened ProtocolHistory
  import opened ProtocolSafety
  import opened ProtocolRuns

  // ------------------------------------------------------------------------------------------
  // What one ending does.

  /** The batch that ends a task leaves its row as written, and stores one event: how it ended. */
  lemma EndTaskWrites(db: Db, taskId: string, live: string, ended: Task, how: Closing, seed: nat)
    requires Ends(db, taskId, live, ended, how)
    ensures var after := EndTask(db, taskId, ended, how, seed);
      && after.tasks.Keys == db.tasks.Keys && after.tasks[taskId] == ended
      && (forall key :: key in after.events && key !in db.events ==>
            key == (ended.queue, TaskDone(taskId)) && after.events[key].payload == Encoded(OutcomeOf(ended)))
  {
  }

  /** An ending changes no other task from live to ended. */
  lemma EndTaskEndsOne(db: Db, taskId: string, live: string, ended: Task, how: Closing, seed: nat, other: string)
    requires Ends(db, taskId, live, ended, how) && other != taskId && other in db.tasks && db.tasks[other].state.Live()
    ensures EndTask(db, taskId, ended, how, seed).tasks[other].state.Live()
  {
  }

  /** Whoever waits for the ended task is pending with its outcome, and waits no more. */
  predicate Told(db: Db, after: Db, key: WaitKey, outcome: Outcome)
    requires key.0 in db.runs
  {
    && key.0 in after.runs && key !in after.waits
    && after.runs[key.0].state == Pending && after.runs[key.0].availableAt == Some(after.now)
    && after.runs[key.0].wakeEvent == db.runs[key.0].wakeEvent && after.runs[key.0].wakeStep == Some(key.1)
    && after.runs[key.0].eventPayload == Some(Encoded(outcome))
    && after.runs[key.0].taskId in after.tasks && after.tasks[after.runs[key.0].taskId].state == Pending
  }

  /** The waiter is another task's run, so the ending leaves its rows alone. */
  lemma WaiterIsSpared(db: Db, taskId: string, live: string, ended: Task, how: Closing, key: WaitKey)
    requires Ends(db, taskId, live, ended, how) && key.0 in db.runs && db.runs[key.0].taskId != taskId && key in db.waits
    ensures var closed := Ended(db, taskId, ended, how);
      key in closed.waits && closed.waits[key] == db.waits[key]
      && key.0 in closed.runs && closed.runs[key.0] == db.runs[key.0]
  {
  }

  lemma WaiterIsAwaiting(db: Db, older: set<string>, taskId: string, key: WaitKey)
    requires Inv(db, older) && key in db.waits && db.waits[key].event == TaskDone(taskId) && taskId in db.tasks
    ensures Sleeper(db.runs[key.0], key.1, db.waits[key]) && db.runs[key.0].taskId == db.waits[key].taskId
    ensures db.waits[key].queue == db.tasks[taskId].queue && (db.tasks[taskId].queue, TaskDone(taskId)) !in db.events
    ensures Owns(db, db.runs[key.0]) && db.tasks[db.runs[key.0].taskId].state == Sleeping
  {
    assert StillAhead(db, db.waits[key]);
  }

  lemma SleeperIsParked(db: Db, taskId: string, live: string, ended: Task, how: Closing, key: WaitKey)
    requires Ends(db, taskId, live, ended, how) && key in db.waits && key.0 in db.runs && db.runs[key.0].taskId != taskId
    requires Sleeper(db.runs[key.0], key.1, db.waits[key]) && Owns(db, db.runs[key.0])
    requires db.tasks[db.runs[key.0].taskId].state == Sleeping
    ensures ParkedOn(Ended(db, taskId, ended, how), key.0, db.waits[key].queue, db.waits[key].event)
  {
    WaiterIsSpared(db, taskId, live, ended, how, key);
  }

  lemma WaiterIsParked(db: Db, older: set<string>, taskId: string, live: string, ended: Task, how: Closing, key: WaitKey)
    requires Inv(db, older) && Ends(db, taskId, live, ended, how)
    requires key in db.waits && db.waits[key].event == TaskDone(taskId) && db.waits[key].taskId != taskId
    ensures db.waits[key].queue == ended.queue && (ended.queue, TaskDone(taskId)) !in db.events
    ensures var closed := Ended(db, taskId, ended, how);
      && ParkedOn(closed, key.0, ended.queue, TaskDone(taskId)) && key in closed.waits
      && key.0 in closed.runs && closed.runs[key.0] == db.runs[key.0]
  {
    WaiterIsAwaiting(db, older, taskId, key);
    WaiterIsSpared(db, taskId, live, ended, how, key);
    SleeperIsParked(db, taskId, live, ended, how, key);
  }

  lemma StoreKeepsParked(db: Db, id: string, queue: string, name: EventName, event: Event)
    requires ParkedOn(db, id, queue, name)
    ensures ParkedOn(Store(db, (queue, name), event), id, queue, name)
  {
  }

  lemma WakeTellsOne(db: Db, queue: string, name: EventName, seed: nat, id: string)
    requires (queue, name) in db.events && ParkedOn(db, id, queue, name)
    ensures var after := Wake(db, queue, name, seed); var run := db.runs[id];
      && after.runs[id] == run.(state := Pending, availableAt := Some(db.events[(queue, name)].emittedAt),
                                eventPayload := Some(db.events[(queue, name)].payload), stamp := By(seed, "wake-finished"))
      && (id, run.wakeStep.value) !in after.waits
      && after.tasks[run.taskId].state == Pending
  {
    assert id in Woken(db, queue, name);
  }

  lemma EndTaskTells(db: Db, older: set<string>, taskId: string, live: string, ended: Task, how: Closing, seed: nat,
                     key: WaitKey)
    requires Inv(db, older) && Ends(db, taskId, live, ended, how)
    requires key in db.waits && db.waits[key].event == TaskDone(taskId) && db.waits[key].taskId != taskId
    ensures Told(db, EndTask(db, taskId, ended, how, seed), key, OutcomeOf(ended))
  {
    WaiterIsParked(db, older, taskId, live, ended, how, key);
    assert Sleeper(db.runs[key.0], key.1, db.waits[key]);
    var event := Event(Encoded(OutcomeOf(ended)), db.now, By(seed, "task-done"));
    var name := TaskDone(taskId);
    var closed := Ended(db, taskId, ended, how);
    StoreKeepsParked(closed, key.0, ended.queue, name, event);
    WakeTellsOne(Store(closed, (ended.queue, name), event), ended.queue, name, seed, key.0);
    assert EndTask(db, taskId, ended, how, seed) == Wake(Store(closed, (ended.queue, name), event), ended.queue, name, seed);
  }

  // ------------------------------------------------------------------------------------------
  // The endings of this build, and no others, end a task.

  /** The batch ends `taskId` by writing `ended` over it. */
  ghost predicate EndsBy(db: Db, after: Db, taskId: string, live: string, ended: Task, how: Closing, seed: nat) {
    Ends(db, taskId, live, ended, how) && after == EndTask(db, taskId, ended, how, seed)
  }

  predicate StopsBeingLive(db: Db, after: Db, taskId: string) {
    taskId in db.tasks && db.tasks[taskId].state.Live() && taskId in after.tasks && !after.tasks[taskId].state.Live()
  }

  lemma EndingEndsOnlyItsTask(db: Db, after: Db, taskId: string, live: string, ended: Task, how: Closing, seed: nat,
                              child: string)
    requires EndsBy(db, after, taskId, live, ended, how, seed) && StopsBeingLive(db, after, child)
    ensures child == taskId
  {
    if child != taskId {
      EndTaskEndsOne(db, taskId, live, ended, how, seed, child);
      assert false;
    }
  }

  lemma CompleteEnds(db: Db, older: set<string>, queue: string, id: string, token: string, result: string, seed: nat,
                     child: string) returns (live: string, ended: Task, how: Closing)
    requires Inv(db, older) && StopsBeingLive(db, Complete(db, queue, id, token, result, seed), child)
    ensures EndsBy(db, Complete(db, queue, id, token, result, seed), child, live, ended, how, seed)
  {
    hide Awaited, Manned, Settled, Wake;
    live := id;
    LiveRunIsTop(db, id);
    ended := db.tasks[db.runs[id].taskId].(state := Completed, result := Some(result), cancelAt := None,
                                           stamp := By(seed, "task"));
    how := Closing(Completed, true, true, By(seed, "complete"));
    EndingEndsOnlyItsTask(db, Complete(db, queue, id, token, result, seed), db.runs[id].taskId, id, ended, how, seed, child);
  }

  lemma CancelEnds(db: Db, older: set<string>, queue: string, taskId: string, deadlineOnly: bool, unlessSaga: bool,
                   seed: nat, child: string) returns (live: string, ended: Task, how: Closing)
    requires Inv(db, older) && StopsBeingLive(db, Cancel(db, queue, taskId, deadlineOnly, unlessSaga, seed), child)
    ensures EndsBy(db, Cancel(db, queue, taskId, deadlineOnly, unlessSaga, seed), child, live, ended, how, seed)
  {
    hide Awaited, Settled, Wake;
    live :| LiveRunOf(db, live, taskId);
    LiveRunIsTop(db, live);
    ended := CancelledTask(db.tasks[taskId], By(seed, "cancel"));
    how := Closing(Cancelled, false, true, By(seed, "runs"));
    EndingEndsOnlyItsTask(db, Cancel(db, queue, taskId, deadlineOnly, unlessSaga, seed), taskId, live, ended, how, seed, child);
  }

  lemma SucceedEndsNothing(db: Db, taskId: string, next: Task, how: Closing, id: string, run: Run, child: string)
    requires next.state.Live() && child in db.tasks && db.tasks[child].state.Live()
    ensures !StopsBeingLive(db, Succeed(db, taskId, next, how, id, run), child)
  {
  }

  lemma NextAttemptEndsNothing(db: Db, f: Failure, seed: nat, child: string)
    requires FailAdmits(db, f) && child in db.tasks && db.tasks[child].state.Live()
    requires !AfterFailure(db.tasks[db.runs[f.runId].taskId], db.runs[f.runId], f).EndsTask?
    ensures !StopsBeingLive(db, Fail(db, f, seed), child)
  {
    var run := db.runs[f.runId];
    var task := db.tasks[run.taskId];
    match AfterFailure(task, run, f)
    case Retries =>
      var next, successor := FailRetriesWrites(db, f, seed);
      SucceedEndsNothing(db, run.taskId, next, FailClosing(seed), f.nextId, successor, child);
    case RollsBack(enters) =>
      var saga, state, due := FailRollsBackWrites(db, f, enters, seed);
      SucceedEndsNothing(db, run.taskId, RollingBack(task.(saga := saga), run, state, seed), FailClosing(seed), f.nextId,
                         Successor(run, state, due, By(seed, "rollback-pass")), child);
  }

  lemma FailEndsTask(db: Db, older: set<string>, f: Failure, seed: nat, child: string)
    returns (live: string, ended: Task, how: Closing)
    requires Inv(db, older) && StopsBeingLive(db, Fail(db, f, seed), child)
    ensures EndsBy(db, Fail(db, f, seed), child, live, ended, how, seed)
  {
    if !AfterFailure(db.tasks[db.runs[f.runId].taskId], db.runs[f.runId], f).EndsTask? {
      NextAttemptEndsNothing(db, f, seed, child);
      assert false;
    }
    live, ended, how := FailEndsBy(db, older, f, seed);
    EndingEndsOnlyItsTask(db, Fail(db, f, seed), db.runs[f.runId].taskId, f.runId, ended, how, seed, child);
  }

  lemma FailEndsBy(db: Db, older: set<string>, f: Failure, seed: nat) returns (live: string, ended: Task, how: Closing)
    requires Inv(db, older) && f.runId in db.runs && db.runs[f.runId].state == Running
    ensures live == f.runId && EndsBy(db, FailEnds(db, f, seed), db.runs[f.runId].taskId, live, ended, how, seed)
  {
    hide Awaited, Manned, Settled, EndTask;
    live := f.runId;
    var run := db.runs[f.runId];
    var task := db.tasks[run.taskId];
    LiveRunIsTop(db, f.runId);
    ended := task.(attempts := UserAttempts(run, task), state := Failed, reason := Some(f.reason),
                   stamp := By(seed, if f.retryMs.Some? && !f.rollback then "task-terminal" else "task"));
    how := FailClosing(seed);
  }

  lemma CapEndsBy(db: Db, older: set<string>, id: string, ended: Task, how: Closing, reason: string, terminal: Stamp)
    requires Inv(db, older) && id in db.runs && db.runs[id].state == Running && how.state == Failed
    requires ended == db.tasks[db.runs[id].taskId].(state := Failed, reason := Some(reason), stamp := terminal)
    ensures Ends(db, db.runs[id].taskId, id, ended, how)
  {
    LiveRunIsTop(db, id);
  }

  lemma AtCapEnds(db: Db, older: set<string>, id: string, passId: string, reason: string, how: Closing, terminal: Stamp,
                  seed: nat, child: string) returns (ended: Task)
    requires Inv(db, older) && id in db.runs && db.runs[id].state == Running && how.state == Failed
    requires StopsBeingLive(db, AtCap(db, id, passId, reason, how, terminal, seed), child)
    ensures EndsBy(db, AtCap(db, id, passId, reason, how, terminal, seed), child, id, ended, how, seed)
  {
    var taskId := db.runs[id].taskId;
    ended := db.tasks[taskId].(state := Failed, reason := Some(reason), stamp := terminal);
    CapEndsBy(db, older, id, ended, how, reason, terminal);
    AtCapEndsOne(db, id, passId, reason, how, terminal, seed, ended, child);
  }

  lemma AtCapEndsOne(db: Db, id: string, passId: string, reason: string, how: Closing, terminal: Stamp, seed: nat,
                     ended: Task, child: string)
    requires id in db.runs && Owns(db, db.runs[id]) && Ends(db, db.runs[id].taskId, id, ended, how)
    requires ended == db.tasks[db.runs[id].taskId].(state := Failed, reason := Some(reason), stamp := terminal)
    requires StopsBeingLive(db, AtCap(db, id, passId, reason, how, terminal, seed), child)
    ensures EndsBy(db, AtCap(db, id, passId, reason, how, terminal, seed), child, id, ended, how, seed)
  {
    var run := db.runs[id];
    var task := db.tasks[run.taskId];
    if EntersSaga(task) {
      SucceedEndsNothing(db, run.taskId, RollingBack(task.(saga := Some(reason)), run, Pending, seed), how, passId,
                         Successor(run, Pending, db.now, By(seed, "rollback-pass")), child);
      assert false;
    } else {
      EndingEndsOnlyItsTask(db, AtCap(db, id, passId, reason, how, terminal, seed), run.taskId, id, ended, how, seed, child);
    }
  }

  lemma LostLaunchEnds(db: Db, older: set<string>, queue: string, id: string, gen: nat, passId: string, seed: nat,
                       child: string) returns (live: string, ended: Task, how: Closing)
    requires Inv(db, older) && StopsBeingLive(db, SweepLostLaunch(db, queue, id, gen, passId, seed), child)
    ensures EndsBy(db, SweepLostLaunch(db, queue, id, gen, passId, seed), child, live, ended, how, seed)
  {
    live := id;
    how := Closing(Failed, false, true, By(seed, "cap"));
    ended := AtCapEnds(db, older, id, passId, REASON_RELAUNCH_CAP, how, By(seed, "task-fail"), seed, child);
  }

  lemma ClaimTimeoutEnds(db: Db, older: set<string>, queue: string, id: string, gen: nat, nextId: string, seed: nat,
                         child: string) returns (live: string, ended: Task, how: Closing)
    requires Inv(db, older) && StopsBeingLive(db, SweepClaimTimeout(db, queue, id, gen, nextId, seed), child)
    ensures EndsBy(db, SweepClaimTimeout(db, queue, id, gen, nextId, seed), child, live, ended, how, seed)
  {
    live := id;
    how := Closing(Failed, false, false, By(seed, "fail"));
    if db.tasks[db.runs[id].taskId].infraRetries < INFRA_RETRY_CAP {
      var next, successor := TimeoutRetriesWrites(db, id, nextId, how, seed);
      SucceedEndsNothing(db, db.runs[id].taskId, next, how, nextId, successor, child);
      assert false;
    } else {
      ended := AtCapEnds(db, older, id, nextId, REASON_INFRA_CAP, how, By(seed, "task-terminal"), seed, child);
    }
  }

  /** No batch but an ending ends a task. */
  lemma OtherStepsEndNothing(w: World, step: Step, child: string)
    requires !EndsOrSweeps(step)
    ensures !StopsBeingLive(w.db, Apply(w, step), child)
  {
  }

  lemma SweepIsEndTask(w: World, step: Step, child: string) returns (live: string, ended: Task, how: Closing)
    requires Inv(w.db, w.older) && StopsBeingLive(w.db, Apply(w, step), child)
    requires step.SweepsLaunch? || step.SweepsClaim?
    ensures EndsBy(w.db, Apply(w, step), child, live, ended, how, w.seed)
  {
    if step.SweepsLaunch? {
      live, ended, how := LostLaunchEnds(w.db, w.older, step.queue, step.id, step.gen, step.passId, w.seed, child);
    } else {
      live, ended, how := ClaimTimeoutEnds(w.db, w.older, step.queue, step.id, step.gen, step.nextId, w.seed, child);
    }
  }

  lemma WorkerEndingIsEndTask(w: World, step: Step, child: string) returns (live: string, ended: Task, how: Closing)
    requires Inv(w.db, w.older) && StopsBeingLive(w.db, Apply(w, step), child)
    requires step.Completes? || step.Fails? || step.Cancels?
    ensures EndsBy(w.db, Apply(w, step), child, live, ended, how, w.seed)
  {
    if step.Completes? {
      live, ended, how := CompleteEnds(w.db, w.older, step.queue, step.id, step.token, step.result, w.seed, child);
    } else if step.Fails? {
      live, ended, how := FailEndsTask(w.db, w.older, step.f, w.seed, child);
    } else {
      live, ended, how := CancelEnds(w.db, w.older, step.queue, step.taskId, step.deadlineOnly, step.unlessSaga, w.seed, child);
    }
  }

  /** Whatever batch of this build ended the task, it ended it in the one way. */
  lemma EndingIsEndTask(w: World, step: Step, child: string) returns (live: string, ended: Task, how: Closing)
    requires Inv(w.db, w.older) && StopsBeingLive(w.db, Apply(w, step), child) && !step.OlderBuild?
    ensures EndsBy(w.db, Apply(w, step), child, live, ended, how, w.seed)
  {
    if !EndsOrSweeps(step) {
      OtherStepsEndNothing(w, step, child);
      assert false;
    } else if step.SweepsLaunch? || step.SweepsClaim? {
      live, ended, how := SweepIsEndTask(w, step, child);
    } else {
      live, ended, how := WorkerEndingIsEndTask(w, step, child);
    }
  }

  /** An older build ends no task that anyone waits for. */
  lemma OlderBuildEndsOne(db: Db, taskId: string, state: State, text: string, seed: nat, child: string)
    requires StopsBeingLive(db, OlderBuildEnds(db, taskId, state, text, seed), child)
    ensures child == taskId && OlderBuildMayEnd(db, taskId)
  {
  }

  // ------------------------------------------------------------------------------------------
  // The promises.

  /** Nobody waits for a task an older build ends. */
  lemma OlderBuildStrandsNobody(w: World, step: Step, child: string, key: WaitKey)
    requires step.OlderBuild? && StopsBeingLive(w.db, Apply(w, step), child) && key in w.db.waits
    ensures w.db.waits[key].event != TaskDone(child)
  {
    OlderBuildEndsOne(w.db, step.taskId, step.state, step.text, w.seed, child);
  }

  /** A run that waits for its own task ends with it: its wait is gone, and nothing is left to wake. */
  predicate EndedInVain(after: Db, key: WaitKey) {
    key !in after.waits && key.0 in after.runs && !after.runs[key.0].state.Live()
  }

  lemma EndTaskTakesItsOwn(db: Db, taskId: string, live: string, ended: Task, how: Closing, seed: nat,
                           key: WaitKey)
    requires Ends(db, taskId, live, ended, how) && LiveRunOf(db, key.0, taskId) && key in db.waits
    ensures EndedInVain(EndTask(db, taskId, ended, how, seed), key)
  {
  }

  /** What an ending does for whoever waits for the task: its own run ends, and any other is told. */
  ghost predicate Answers(db: Db, after: Db, child: string, key: WaitKey)
    requires key in db.waits && child in after.tasks
  {
    if db.waits[key].taskId == child then EndedInVain(after, key)
    else key.0 in db.runs && Told(db, after, key, OutcomeOf(after.tasks[child]))
  }

  lemma EndingTells(w: World, step: Step, child: string, key: WaitKey)
    requires Inv(w.db, w.older) && StopsBeingLive(w.db, Apply(w, step), child)
    requires key in w.db.waits && w.db.waits[key].event == TaskDone(child)
    ensures Answers(w.db, Apply(w, step), child, key)
  {
    assert Sleeper(w.db.runs[key.0], key.1, w.db.waits[key]);
    if step.OlderBuild? {
      OlderBuildStrandsNobody(w, step, child, key);
      assert false;
    } else {
      var live, ended, how := EndingIsEndTask(w, step, child);
      EndTaskWrites(w.db, child, live, ended, how, w.seed);
      if w.db.waits[key].taskId == child {
        EndTaskTakesItsOwn(w.db, child, live, ended, how, w.seed, key);
      } else {
        EndTaskTells(w.db, w.older, child, live, ended, how, w.seed, key);
      }
    }
  }

  /**
   * No lost wakeup: whichever batch ends a task, every run of another task that waits for it is
   * pending with the task's outcome when the batch is done, and its wait is gone. A run of the
   * task itself ends with it, and takes its wait along.
   */
  lemma EndingTellsEveryWaiter(now: int, steps: seq<Step>, step: Step, child: string, key: WaitKey)
    requires var w := After(Empty(now), steps);
      && StopsBeingLive(w.db, Apply(w, step), child)
      && key in w.db.waits && w.db.waits[key].event == TaskDone(child)
    ensures var w := After(Empty(now), steps); Answers(w.db, Apply(w, step), child, key)
  {
    ReachableIsSound(now, steps);
    EndingTells(After(Empty(now), steps), step, child, key);
  }

  /**
   * And nobody waits in vain: in every reachable state, a wait has a sleeping waiter, its event
   * has not happened, and the task it awaits is live in its own queue. A live run that no instant
   * makes due is running or asleep under such a wait.
   */
  lemma NobodyWaitsInVain(now: int, steps: seq<Step>)
    ensures var db := After(Empty(now), steps).db;
      && (forall key :: key in db.waits ==>
            && key.0 in db.runs && Sleeper(db.runs[key.0], key.1, db.waits[key])
            && (db.waits[key].queue, db.waits[key].event) !in db.events
            && (db.waits[key].event.TaskDone? ==>
                  var child := db.waits[key].event.taskId;
                  child in db.tasks && db.tasks[child].state.Live() && db.tasks[child].queue == db.waits[key].queue))
      && NobodyStranded(db)
  {
    ReachableIsSound(now, steps);
    var db := After(Empty(now), steps).db;
    forall key | key in db.waits
      ensures key.0 in db.runs && Sleeper(db.runs[key.0], key.1, db.waits[key]) && StillAhead(db, db.waits[key])
    {
    }
  }
}
