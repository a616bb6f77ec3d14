/** What holds of every history, from the empty database on. */
module ProtocolSafety {
  import opened Options
  import opened Tables
  import opened Protocol
  import opened ProtocolInvariant
  import opened ProtocolSteps
  import opened ProtocolHistory

  // ------------------------------------------------------------------------------------------
  // Each batch beside the rows it found.

  lemma RunOnlyGrows(db: Db, id: string, run: Run, seed: nat)
    requires id in db.runs && RunGrows(db, id, db.runs[id], run)
    ensures Grows(db, db.(runs := db.runs[id := run]), seed)
  {
  }

  lemma FailGrows(db: Db, f: Failure, seed: nat)
    ensures Grows(db, Fail(db, f, seed), seed)
  {
    if FailAdmits(db, f) {
      var run := db.runs[f.runId];
      match AfterFailure(db.tasks[run.taskId], run, f)
      case Retries =>
        var next, successor := FailRetriesWrites(db, f, seed);
        SucceedGrows(db, run.taskId, next, FailClosing(seed), f.nextId, successor, seed);
      case RollsBack(enters) =>
        var saga, state, due := FailRollsBackWrites(db, f, enters, seed);
        SucceedGrows(db, run.taskId, RollingBack(db.tasks[run.taskId].(saga := saga), run, state, seed), FailClosing(seed),
                     f.nextId, Successor(run, state, due, By(seed, "rollback-pass")), seed);
      case EndsTask =>
        EndTaskGrows(db, run.taskId,
          db.tasks[run.taskId].(attempts := UserAttempts(run, db.tasks[run.taskId]), state := Failed, reason := Some(f.reason),
            stamp := By(seed, if f.retryMs.Some? && !f.rollback then "task-terminal" else "task")), FailClosing(seed), seed);
    }
  }

  lemma AtCapGrows(db: Db, id: string, passId: string, reason: string, how: Closing, terminal: Stamp, seed: nat)
    requires id in db.runs && Owns(db, db.runs[id]) && passId !in db.runs && how.state == Failed
    requires terminal.By? && terminal.seed == seed
    ensures Grows(db, AtCap(db, id, passId, reason, how, terminal, seed), seed)
  {
    var run := db.runs[id];
    var task := db.tasks[run.taskId];
    if EntersSaga(task) {
      SucceedGrows(db, run.taskId, RollingBack(task.(saga := Some(reason)), run, Pending, seed), how, passId,
                   Successor(run, Pending, db.now, By(seed, "rollback-pass")), seed);
    } else {
      EndTaskGrows(db, run.taskId, task.(state := Failed, reason := Some(reason), stamp := terminal), how, seed);
    }
  }

  lemma LostLaunchGrows(db: Db, queue: string, id: string, gen: nat, passId: string, seed: nat)
    ensures Grows(db, SweepLostLaunch(db, queue, id, gen, passId, seed), seed)
  {
    if Swept(db, queue, id, gen) && passId !in db.runs && db.runs[id].activatedGen < gen {
      if db.runs[id].relaunches < RELAUNCH_CAP {
        var after := SweepLostLaunch(db, queue, id, gen, passId, seed);
        MoveGrows(db, id, after.runs[id], after.tasks[db.runs[id].taskId], seed);
      } else {
        AtCapGrows(db, id, passId, REASON_RELAUNCH_CAP, Closing(Failed, false, true, By(seed, "cap")),
                   By(seed, "task-fail"), seed);
      }
    }
  }

  lemma ClaimTimeoutGrows(db: Db, queue: string, id: string, gen: nat, nextId: string, seed: nat)
    ensures Grows(db, SweepClaimTimeout(db, queue, id, gen, nextId, seed), seed)
  {
    if Swept(db, queue, id, gen) && nextId !in db.runs && db.runs[id].activatedGen == gen {
      var how := Closing(Failed, false, false, By(seed, "fail"));
      if db.tasks[db.runs[id].taskId].infraRetries < INFRA_RETRY_CAP {
        var next, successor := TimeoutRetriesWrites(db, id, nextId, how, seed);
        SucceedGrows(db, db.runs[id].taskId, next, how, nextId, successor, seed);
      } else {
        AtCapGrows(db, id, nextId, REASON_INFRA_CAP, how, By(seed, "task-terminal"), seed);
      }
    }
  }

  lemma EmitGrows(db: Db, queue: string, name: string, text: string, seed: nat)
    ensures Grows(db, EmitEvent(db, queue, name, text, seed), seed)
  {
    var key := (queue, FromPort(name));
    var event := if key in db.events then db.events[key].(stamp := By(seed, "event"))
                 else Event(Json(text), db.now, By(seed, "event"));
    StoreGrows(db, key, event, seed);
    WakeGrows(Store(db, key, event), queue, FromPort(name), seed);
    GrowsOn(db, Store(db, key, event), EmitEvent(db, queue, name, text, seed), seed);
  }

  lemma CompleteGrows(db: Db, queue: string, id: string, token: string, result: string, seed: nat)
    ensures Grows(db, Complete(db, queue, id, token, result, seed), seed)
  {
    if CompleteAdmits(db, queue, id, token) {
      var task := db.tasks[db.runs[id].taskId];
      EndTaskGrows(db, db.runs[id].taskId,
                   task.(state := Completed, result := Some(result), cancelAt := None, stamp := By(seed, "task")),
                   Closing(Completed, true, true, By(seed, "complete")), seed);
    }
  }

  lemma CancelGrows(db: Db, queue: string, taskId: string, deadlineOnly: bool, unlessSaga: bool, seed: nat)
    ensures Grows(db, Cancel(db, queue, taskId, deadlineOnly, unlessSaga, seed), seed)
  {
    if CancelAdmits(db, queue, taskId, deadlineOnly, unlessSaga) {
      EndTaskGrows(db, taskId, CancelledTask(db.tasks[taskId], By(seed, "cancel")),
                   Closing(Cancelled, false, true, By(seed, "runs")), seed);
    }
  }

  lemma OlderBuildGrows(db: Db, taskId: string, state: State, text: string, seed: nat)
    ensures Grows(db, OlderBuildEnds(db, taskId, state, text, seed), seed)
  {
    if OlderBuildMayEnd(db, taskId) && !state.Live() {
      var how := Closing(state, state == Completed, true, By(seed, "runs"));
      var ended := OlderBuildEnds(db, taskId, state, text, seed).tasks[taskId];
      assert OlderBuildEnds(db, taskId, state, text, seed) == Ended(db, taskId, ended, how);
      EndedGrows(db, taskId, ended, how, seed);
    }
  }

  lemma ActivateGrows(db: Db, queue: string, id: string, token: string, gen: nat, seed: nat)
    ensures Grows(db, Activate(db, queue, id, token, gen, seed), seed)
  {
    if Receipt(db, queue, id, token, gen) {
      var after := Activate(db, queue, id, token, gen, seed);
      MoveGrows(db, id, after.runs[id], after.tasks[db.runs[id].taskId], seed);
    }
  }

  lemma HeartbeatGrows(db: Db, queue: string, id: string, token: string, ms: nat, seed: nat)
    ensures Grows(db, Heartbeat(db, queue, id, token, ms, seed), seed)
  {
    if LiveClaim(db, queue, id, token) {
      RunOnlyGrows(db, id, Heartbeat(db, queue, id, token, ms, seed).runs[id], seed);
    }
  }

  lemma ExpireGrows(db: Db, queue: string, id: string, token: string, seed: nat)
    ensures Grows(db, ExpireLeaseNow(db, queue, id, token), seed)
  {
    if id in db.runs {
      RunOnlyGrows(db, id, ExpireLeaseNow(db, queue, id, token).runs[id], seed);
    }
  }

  lemma CheckpointGrows(db: Db, queue: string, id: string, token: string, ms: nat, owed: bool, seed: nat)
    ensures Grows(db, SetCheckpoint(db, queue, id, token, ms, owed, seed), seed)
  {
    if LiveClaim(db, queue, id, token) {
      var after := SetCheckpoint(db, queue, id, token, ms, owed, seed);
      MoveGrows(db, id, after.runs[id], after.tasks[db.runs[id].taskId], seed);
    }
  }

  lemma SuspensionsGrow(db: Db, queue: string, id: string, token: string, gen: nat, wakeAt: int, marker: bool, seed: nat)
    ensures Grows(db, Suspend(db, queue, id, token, wakeAt, marker, seed), seed)
    ensures Grows(db, DeferLaunch(db, queue, id, token, gen, wakeAt, seed), seed)
  {
    if Claimed(db, queue, id, token) {
      if MayPark(db, queue, id, token) && !(marker && db.tasks[db.runs[id].taskId].saga.Some?) {
        ParkGrows(db, id, Suspend(db, queue, id, token, wakeAt, marker, seed).runs[id], By(seed, "task-mirror"), seed);
      }
      if Receipt(db, queue, id, token, gen) {
        ParkGrows(db, id, DeferLaunch(db, queue, id, token, gen, wakeAt, seed).runs[id], By(seed, "task-mirror"), seed);
      }
    }
  }

  lemma SpawnGrows(db: Db, s: Spawning, seed: nat)
    ensures Grows(db, Spawn(db, s, seed), seed)
  {
    if SpawnAdmits(db, s) {
      var after := Spawn(db, s, seed);
      StartGrows(db, s.taskId, after.tasks[s.taskId], s.runId, after.runs[s.runId], seed);
    }
  }

  lemma ReviveGrows(db: Db, queue: string, taskId: string, top: string, runId: string, seed: nat)
    ensures Grows(db, RetryTask(db, queue, taskId, top, runId, seed), seed)
  {
    if RetryAdmits(db, queue, taskId, top, runId) {
      var after := RetryTask(db, queue, taskId, top, runId, seed);
      StartGrows(db, taskId, after.tasks[taskId], runId, after.runs[runId], seed);
    }
  }

  lemma RecordGrows(db: Db, a: Await, child: string, stamp: Stamp, outcome: Outcome, seed: nat)
    ensures Grows(db, RecordTaskDone(db, a, child, stamp, outcome, seed), seed)
  {
    if RecordAdmits(db, a, child, stamp) {
      StoreGrows(db, (db.tasks[child].queue, TaskDone(child)), Event(Encoded(outcome), db.now, By(seed, "materialize")), seed);
    }
  }

  lemma WorkerEndingGrows(w: World, step: Step)
    requires step.Completes? || step.Fails?
    ensures Grows(w.db, Apply(w, step), w.seed)
  {
    match step
    case Completes(queue, id, token, result) => CompleteGrows(w.db, queue, id, token, result, w.seed);
    case Fails(f) => FailGrows(w.db, f, w.seed);
  }

  lemma CancellationGrows(w: World, step: Step)
    requires step.Cancels? || step.OlderBuild?
    ensures Grows(w.db, Apply(w, step), w.seed)
  {
    match step
    case Cancels(queue, taskId, deadlineOnly, unlessSaga) =>
      CancelGrows(w.db, queue, taskId, deadlineOnly, unlessSaga, w.seed);
    case OlderBuild(taskId, state, text) => OlderBuildGrows(w.db, taskId, state, text, w.seed);
  }

  lemma SweepGrows(w: World, step: Step)
    requires step.SweepsLaunch? || step.SweepsClaim?
    ensures Grows(w.db, Apply(w, step), w.seed)
  {
    match step
    case SweepsLaunch(queue, id, gen, passId) => LostLaunchGrows(w.db, queue, id, gen, passId, w.seed);
    case SweepsClaim(queue, id, gen, nextId) => ClaimTimeoutGrows(w.db, queue, id, gen, nextId, w.seed);
  }

  predicate EndsOrSweeps(step: Step) {
    step.Completes? || step.Fails? || step.SweepsLaunch? || step.SweepsClaim? || step.Cancels? || step.OlderBuild?
  }

  /** Every batch but a claim and an await. */
  lemma StepGrows(w: World, step: Step)
    requires !step.Claims? && !step.Awaits?
    ensures Grows(w.db, Apply(w, step), w.seed)
  {
    if step.SweepsLaunch? || step.SweepsClaim? {
      SweepGrows(w, step);
    } else if step.Completes? || step.Fails? {
      WorkerEndingGrows(w, step);
    } else if step.Cancels? || step.OlderBuild? {
      CancellationGrows(w, step);
    } else {
      OtherStepGrows(w, step);
    }
  }

  lemma WritesNothingGrows(db: Db, ms: nat, seed: nat)
    ensures Grows(db, db, seed) && Grows(db, Later(db, ms), seed)
  {
  }

  lemma OtherStepGrows(w: World, step: Step)
    requires !step.Claims? && !step.Awaits? && !EndsOrSweeps(step)
    ensures Grows(w.db, Apply(w, step), w.seed)
  {
    hide Grows, Spawn, Activate, Heartbeat, ExpireLeaseNow, SetCheckpoint, Suspend, DeferLaunch, RetryTask, EmitEvent,
         RecordTaskDone;
    var db, seed := w.db, w.seed;
    match step
    case Tick(ms) => WritesNothingGrows(db, ms, seed);
    case Spawns(s) => SpawnGrows(db, s, seed);
    case Activates(queue, id, token, gen) => ActivateGrows(db, queue, id, token, gen, seed);
    case Heartbeats(queue, id, token, extendMs) => HeartbeatGrows(db, queue, id, token, extendMs, seed);
    case Expires(queue, id, token) => ExpireGrows(db, queue, id, token, seed);
    case Checkpoints(queue, id, token, extendMs, owed) => CheckpointGrows(db, queue, id, token, extendMs, owed, seed);
    case Suspends(queue, id, token, wakeAt, marker) => SuspensionsGrow(db, queue, id, token, 0, wakeAt, marker, seed);
    case Defers(queue, id, token, gen, wakeAt) => SuspensionsGrow(db, queue, id, token, gen, wakeAt, false, seed);
    case Revives(queue, taskId, top, runId) => ReviveGrows(db, queue, taskId, top, runId, seed);
    case Emits(queue, name, text) => EmitGrows(db, queue, name, text, seed);
    case Reads(child) => WritesNothingGrows(db, 0, seed);
    case Records(a, read) =>
      WritesNothingGrows(db, 0, seed);
      RecordGrows(db, a, read.child, read.stamp, read.outcome, seed);
  }

  /** A claim gives its token to the runs it picks, one generation on, and takes no claim away. */
  lemma ClaimGrows(db: Db, queue: string, token: string, leaseMs: nat, limit: nat, picked: set<string>, seed: nat)
    ensures var after := Claim(db, queue, token, leaseMs, limit, picked, seed);
      && TasksGrow(db, after, seed) && EventsGrow(db, after) && WaitsShrink(db, after)
      && after.runs.Keys == db.runs.Keys
      && (forall id :: id in db.runs ==>
            && after.runs[id].eventPayload == db.runs[id].eventPayload
            && after.runs[id].activatedGen == db.runs[id].activatedGen
            && (after.runs[id] == db.runs[id]
                || (id in picked && ClaimAdmits(db, queue, token, leaseMs, limit, picked)
                    && after.runs[id].claimGen == db.runs[id].claimGen + 1 && after.runs[id].queue == queue
                    && after.runs[id].claimedBy == Some(token))))
  {
    if ClaimAdmits(db, queue, token, leaseMs, limit, picked) {
      forall id | id in picked ensures Claimable(db, queue, id) {
      }
    }
  }

  lemma AwaitGrows(db: Db, a: Await, name: EventName, timeoutMs: Option<nat>, seed: nat)
    ensures var after := AwaitEvent(db, a, name, timeoutMs, seed);
      TasksGrow(db, after, seed) && EventsGrow(db, after) && RunsGrow(db, after)
    ensures forall key :: key in AwaitEvent(db, a, name, timeoutMs, seed).waits ==> key in db.waits || key.0 == a.runId
  {
  }
}
