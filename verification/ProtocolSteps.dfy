/** Every batch, refused or not, keeps the invariant. */
module ProtocolSteps {
  import opened Options
  import opened Tables
  import opened Protocol
  import opened ProtocolInvariant
  import opened ProtocolStarts

  lemma SpawnStepKeeps(db: Db, older: set<string>, s: Spawning, seed: nat)
    requires Inv(db, older)
    ensures Inv(Spawn(db, s, seed), older)
  {
    if SpawnAdmits(db, s) {
      var after := Spawn(db, s, seed);
      assert after == Start(db, s.taskId, after.tasks[s.taskId], s.runId, after.runs[s.runId]);
      SpawnKeeps(db, older, s.taskId, after.tasks[s.taskId], s.runId, after.runs[s.runId]);
    }
  }

  // ------------------------------------------------------------------------------------------
  // One running run.

  /** A running run has registered no wait. */
  lemma RunningRunHasNoWait(db: Db, id: string)
    requires Wakeable(db, {}) && id in db.runs && db.runs[id].state == Running
    ensures forall key :: key in db.waits ==> key.0 != id
  {
    forall key | key in db.waits ensures key.0 != id {
      assert Sleeper(db.runs[key.0], key.1, db.waits[key]);
    }
  }

  /** Live, by its claim: a claimed run's task is live under the invariant. */
  lemma ClaimedIsLive(db: Db, queue: string, id: string, token: string)
    requires Mirrored(db) && Claimed(db, queue, id, token)
    ensures db.tasks[db.runs[id].taskId].state == Running
    ensures LiveRunOf(db, id, db.runs[id].taskId)
  {
  }

  lemma RunAloneKeeps(db: Db, older: set<string>, id: string, run: Run)
    requires Inv(db, older) && id in db.runs && db.runs[id].state == Running && run.state == Running
    requires SameRun(db.runs[id], run)
    requires run.eventPayload == db.runs[id].eventPayload && run.wakeEvent == db.runs[id].wakeEvent
    ensures Inv(db.(runs := db.runs[id := run]), older)
  {
    hide Manned, Numbered, Settled, Awaited;
    assert db.(runs := db.runs[id := run]) == Move(db, id, run, db.tasks[run.taskId]);
    MoveKeeps(db, older, id, run, db.tasks[run.taskId]);
  }

  lemma ActivateKeeps(db: Db, older: set<string>, queue: string, id: string, token: string, gen: nat, seed: nat)
    requires Inv(db, older)
    ensures Inv(Activate(db, queue, id, token, gen, seed), older)
  {
    if Receipt(db, queue, id, token, gen) {
      ClaimedIsLive(db, queue, id, token);
      var after := Activate(db, queue, id, token, gen, seed);
      MoveKeeps(db, older, id, after.runs[id], after.tasks[db.runs[id].taskId]);
    }
  }

  lemma HeartbeatKeeps(db: Db, older: set<string>, queue: string, id: string, token: string, extendMs: nat, seed: nat)
    requires Inv(db, older)
    ensures Inv(Heartbeat(db, queue, id, token, extendMs, seed), older)
  {
    if LiveClaim(db, queue, id, token) {
      RunAloneKeeps(db, older, id, Heartbeat(db, queue, id, token, extendMs, seed).runs[id]);
    }
  }

  lemma ExpireKeeps(db: Db, older: set<string>, queue: string, id: string, token: string)
    requires Inv(db, older)
    ensures Inv(ExpireLeaseNow(db, queue, id, token), older)
  {
    hide Manned, Numbered, Settled, Awaited;
    if Claimed(db, queue, id, token) && !Expired(db.runs[id], db.now) && db.runs[id].expiresAt.Some? {
      RunAloneKeeps(db, older, id, ExpireLeaseNow(db, queue, id, token).runs[id]);
    }
  }

  lemma CheckpointKeeps(db: Db, older: set<string>, queue: string, id: string, token: string, extendMs: nat,
                        owed: bool, seed: nat)
    requires Inv(db, older)
    ensures Inv(SetCheckpoint(db, queue, id, token, extendMs, owed, seed), older)
  {
    if LiveClaim(db, queue, id, token) {
      ClaimedIsLive(db, queue, id, token);
      var after := SetCheckpoint(db, queue, id, token, extendMs, owed, seed);
      MoveKeeps(db, older, id, after.runs[id], after.tasks[db.runs[id].taskId]);
    }
  }

  lemma ParkKeeps(db: Db, older: set<string>, id: string, run: Run, stamp: Stamp)
    requires Inv(db, older) && id in db.runs && db.runs[id].state == Running
    requires SameRun(db.runs[id], run) && (run.state == Pending || run.state == Sleeping) && run.availableAt.Some?
    requires run.eventPayload.None?
          || (run.eventPayload == db.runs[id].eventPayload && run.wakeEvent == db.runs[id].wakeEvent)
    ensures Inv(Park(db, id, run, stamp), older)
  {
    hide Manned, Numbered, Settled, NobodyStranded, Announced, Carried;
    var task := db.tasks[run.taskId].(state := run.state, stamp := stamp);
    RunningRunHasNoWait(db, id);
    assert (map key | key in db.waits && key.0 != id :: db.waits[key]) == db.waits;
    assert Park(db, id, run, stamp) == Move(db, id, run, task);
    assert db.tasks[run.taskId].state == Running;
    MoveKeeps(db, older, id, run, task);
  }

  lemma SuspendKeeps(db: Db, older: set<string>, queue: string, id: string, token: string, wakeAt: int, marker: bool, seed: nat)
    requires Inv(db, older)
    ensures Inv(Suspend(db, queue, id, token, wakeAt, marker, seed), older)
  {
    if MayPark(db, queue, id, token) && !(marker && db.tasks[db.runs[id].taskId].saga.Some?) {
      ParkKeeps(db, older, id, Suspend(db, queue, id, token, wakeAt, marker, seed).runs[id], By(seed, "task-mirror"));
    }
  }

  lemma DeferKeeps(db: Db, older: set<string>, queue: string, id: string, token: string, gen: nat, wakeAt: int, seed: nat)
    requires Inv(db, older)
    ensures Inv(DeferLaunch(db, queue, id, token, gen, wakeAt, seed), older)
  {
    if Receipt(db, queue, id, token, gen) {
      ParkKeeps(db, older, id, DeferLaunch(db, queue, id, token, gen, wakeAt, seed).runs[id], By(seed, "task-mirror"));
    }
  }

  // ------------------------------------------------------------------------------------------
  // Endings and next attempts.

  lemma CompleteKeeps(db: Db, older: set<string>, queue: string, id: string, token: string, result: string, seed: nat)
    requires Inv(db, older)
    ensures Inv(Complete(db, queue, id, token, result, seed), older)
  {
    if CompleteAdmits(db, queue, id, token) {
      var taskId := db.runs[id].taskId;
      ClaimedIsLive(db, queue, id, token);
      assert Accounted(db.runs[id], db.tasks[taskId]);
      EndTaskKeeps(db, older, taskId, id,
        db.tasks[taskId].(state := Completed, result := Some(result), cancelAt := None, stamp := By(seed, "task")),
        Closing(Completed, true, true, By(seed, "complete")), seed);
    }
  }

  /** The live run is its task's top run. */
  lemma LiveRunIsTop(db: Db, id: string)
    requires Numbered(db) && id in db.runs && db.runs[id].state.Live()
    ensures TopRun(db, db.runs[id].taskId, id)
    ensures Accounted(db.runs[id], db.tasks[db.runs[id].taskId])
  {
  }

  /** The next attempt of a running run, under whatever books keep the count. */
  lemma NextAttemptKeeps(db: Db, older: set<string>, id: string, next: Task, how: Closing, nextId: string, successor: Run)
    requires Inv(db, older) && id in db.runs && db.runs[id].state == Running && nextId !in db.runs
    requires how.state == Failed && !how.clearsWake && (successor.state == Pending || successor.state == Sleeping)
    requires successor.availableAt.Some?
    requires successor == Successor(db.runs[id], successor.state, successor.availableAt.value, successor.stamp)
    requires next.queue == db.runs[id].queue && next.state == successor.state && TaskFits(next)
    requires Accounted(successor, next)
    ensures Inv(Succeed(db, db.runs[id].taskId, next, how, nextId, successor), older)
  {
    LiveRunIsTop(db, id);
    SucceedKeeps(db, older, db.runs[id].taskId, id, next, how, nextId, successor);
  }

  lemma RollbackPassKeeps(db: Db, older: set<string>, id: string, saga: Option<string>, state: State, due: int,
                          how: Closing, passId: string, seed: nat)
    requires Inv(db, older) && id in db.runs && db.runs[id].state == Running && passId !in db.runs
    requires (state == Pending || state == Sleeping) && how.state == Failed && !how.clearsWake
    ensures var run := db.runs[id];
      Inv(Succeed(db, run.taskId, RollingBack(db.tasks[run.taskId].(saga := saga), run, state, seed), how, passId,
                  Successor(run, state, due, By(seed, "rollback-pass"))), older)
  {
    var run := db.runs[id];
    LiveRunIsTop(db, id);
    NextAttemptKeeps(db, older, id, RollingBack(db.tasks[run.taskId].(saga := saga), run, state, seed), how,
                     passId, Successor(run, state, due, By(seed, "rollback-pass")));
  }

  lemma FailRetriesWrites(db: Db, f: Failure, seed: nat) returns (next: Task, successor: Run)
    requires f.runId in db.runs && Owns(db, db.runs[f.runId])
    ensures FailRetries(db, f, seed)
         == Succeed(db, db.runs[f.runId].taskId, next, FailClosing(seed), f.nextId, successor)
    ensures var task := db.tasks[db.runs[f.runId].taskId];
      next == task.(attempts := UserAttempts(db.runs[f.runId], task), state := successor.state,
                    stamp := By(seed, "task-retrying"))
    ensures successor == Successor(db.runs[f.runId], successor.state, db.now + FailDelay(f), By(seed, "successor"))
    ensures successor.state == if FailDelay(f) == 0 then Pending else Sleeping
  {
    var run := db.runs[f.runId];
    var task := db.tasks[run.taskId];
    var state := if FailDelay(f) == 0 then Pending else Sleeping;
    next := task.(attempts := UserAttempts(run, task), state := state, stamp := By(seed, "task-retrying"));
    successor := Successor(run, state, db.now + FailDelay(f), By(seed, "successor"));
  }

  lemma FailRetriesKeeps(db: Db, older: set<string>, f: Failure, seed: nat)
    requires Inv(db, older) && f.runId in db.runs && db.runs[f.runId].state == Running && f.nextId !in db.runs
    requires UserAttempts(db.runs[f.runId], db.tasks[db.runs[f.runId].taskId]) < db.tasks[db.runs[f.runId].taskId].maxAttempts
    ensures Inv(FailRetries(db, f, seed), older)
  {
    LiveRunIsTop(db, f.runId);
    var next, successor := FailRetriesWrites(db, f, seed);
    NextAttemptKeeps(db, older, f.runId, next, FailClosing(seed), f.nextId, successor);
  }

  lemma FailRollsBackWrites(db: Db, f: Failure, enters: bool, seed: nat) returns (saga: Option<string>, state: State, due: int)
    requires f.runId in db.runs && Owns(db, db.runs[f.runId])
    ensures var run := db.runs[f.runId];
      FailRollsBack(db, f, enters, seed)
      == Succeed(db, run.taskId, RollingBack(db.tasks[run.taskId].(saga := saga), run, state, seed), FailClosing(seed),
                 f.nextId, Successor(run, state, due, By(seed, "rollback-pass")))
    ensures saga == if enters then Some(f.reason) else db.tasks[db.runs[f.runId].taskId].saga
    ensures state == if enters || FailDelay(f) == 0 then Pending else Sleeping
    ensures due == db.now + if enters then 0 else FailDelay(f)
  {
    var delay := if enters then 0 else FailDelay(f);
    saga := if enters then Some(f.reason) else db.tasks[db.runs[f.runId].taskId].saga;
    state := if delay == 0 then Pending else Sleeping;
    due := db.now + delay;
  }

  lemma FailRollsBackKeeps(db: Db, older: set<string>, f: Failure, enters: bool, seed: nat)
    requires Inv(db, older) && f.runId in db.runs && db.runs[f.runId].state == Running && f.nextId !in db.runs
    ensures Inv(FailRollsBack(db, f, enters, seed), older)
  {
    var saga, state, due := FailRollsBackWrites(db, f, enters, seed);
    RollbackPassKeeps(db, older, f.runId, saga, state, due, FailClosing(seed), f.nextId, seed);
  }

  lemma FailedTaskKeeps(db: Db, older: set<string>, id: string, attempts: nat, reason: string, stamp: Stamp, how: Closing,
                        seed: nat)
    requires Inv(db, older) && id in db.runs && db.runs[id].state == Running && how.state == Failed
    requires attempts == UserAttempts(db.runs[id], db.tasks[db.runs[id].taskId])
          || attempts == db.tasks[db.runs[id].taskId].attempts
    ensures var taskId := db.runs[id].taskId;
      Inv(EndTask(db, taskId, db.tasks[taskId].(attempts := attempts, state := Failed, reason := Some(reason),
                                                stamp := stamp), how, seed), older)
  {
    var taskId := db.runs[id].taskId;
    LiveRunIsTop(db, id);
    EndTaskKeeps(db, older, taskId, id,
                 db.tasks[taskId].(attempts := attempts, state := Failed, reason := Some(reason), stamp := stamp), how, seed);
  }

  lemma FailEndsKeeps(db: Db, older: set<string>, f: Failure, seed: nat)
    requires Inv(db, older) && f.runId in db.runs && db.runs[f.runId].state == Running && f.nextId !in db.runs
    ensures Inv(FailEnds(db, f, seed), older)
  {
    var run := db.runs[f.runId];
    FailedTaskKeeps(db, older, f.runId, UserAttempts(run, db.tasks[run.taskId]), f.reason,
                    By(seed, if f.retryMs.Some? && !f.rollback then "task-terminal" else "task"), FailClosing(seed), seed);
  }

  lemma FailKeeps(db: Db, older: set<string>, f: Failure, seed: nat)
    requires Inv(db, older)
    ensures Inv(Fail(db, f, seed), older)
  {
    if FailAdmits(db, f) {
      match AfterFailure(db.tasks[db.runs[f.runId].taskId], db.runs[f.runId], f)
      case Retries => FailRetriesKeeps(db, older, f, seed);
      case RollsBack(enters) => FailRollsBackKeeps(db, older, f, enters, seed);
      case EndsTask => FailEndsKeeps(db, older, f, seed);
    }
  }

  lemma AtCapKeeps(db: Db, older: set<string>, id: string, passId: string, reason: string, how: Closing, terminal: Stamp,
                   seed: nat)
    requires Inv(db, older) && id in db.runs && db.runs[id].state == Running && passId !in db.runs
    requires how.state == Failed && !how.clearsWake
    ensures Inv(AtCap(db, id, passId, reason, how, terminal, seed), older)
  {
    var task := db.tasks[db.runs[id].taskId];
    if EntersSaga(task) {
      RollbackPassKeeps(db, older, id, Some(reason), Pending, db.now, how, passId, seed);
    } else {
      FailedTaskKeeps(db, older, id, task.attempts, reason, terminal, how, seed);
    }
  }

  lemma LostLaunchKeeps(db: Db, older: set<string>, queue: string, id: string, gen: nat, passId: string, seed: nat)
    requires Inv(db, older)
    ensures Inv(SweepLostLaunch(db, queue, id, gen, passId, seed), older)
  {
    if Swept(db, queue, id, gen) && db.runs[id].activatedGen < gen && passId !in db.runs {
      var after := SweepLostLaunch(db, queue, id, gen, passId, seed);
      if db.runs[id].relaunches < RELAUNCH_CAP {
        MoveKeeps(db, older, id, after.runs[id], after.tasks[db.runs[id].taskId]);
      } else {
        AtCapKeeps(db, older, id, passId, REASON_RELAUNCH_CAP, Closing(Failed, false, true, By(seed, "cap")),
                   By(seed, "task-fail"), seed);
      }
    }
  }

  lemma TimeoutRetriesWrites(db: Db, id: string, nextId: string, how: Closing, seed: nat)
    returns (next: Task, successor: Run)
    requires id in db.runs && Owns(db, db.runs[id]) && Accounted(db.runs[id], db.tasks[db.runs[id].taskId])
    ensures TimeoutRetries(db, id, nextId, how, seed) == Succeed(db, db.runs[id].taskId, next, how, nextId, successor)
    ensures next == db.tasks[db.runs[id].taskId].(infraRetries := db.runs[id].attempt - db.tasks[db.runs[id].taskId].attempts,
                                                  state := Pending, stamp := By(seed, "bookkeeping"))
    ensures successor == Successor(db.runs[id], Pending, db.now + INFRA_BACKOFF_MS, By(seed, "successor"))
  {
    var run := db.runs[id];
    var task := db.tasks[run.taskId];
    next := task.(infraRetries := run.attempt - task.attempts, state := Pending, stamp := By(seed, "bookkeeping"));
    successor := Successor(run, Pending, db.now + INFRA_BACKOFF_MS, By(seed, "successor"));
  }

  lemma TimeoutRetriesKeeps(db: Db, older: set<string>, id: string, nextId: string, how: Closing, seed: nat)
    requires Inv(db, older) && id in db.runs && db.runs[id].state == Running && nextId !in db.runs
    requires how.state == Failed && !how.clearsWake && db.tasks[db.runs[id].taskId].infraRetries < INFRA_RETRY_CAP
    ensures Inv(TimeoutRetries(db, id, nextId, how, seed), older)
  {
    LiveRunIsTop(db, id);
    var next, successor := TimeoutRetriesWrites(db, id, nextId, how, seed);
    NextAttemptKeeps(db, older, id, next, how, nextId, successor);
  }

  lemma ClaimTimeoutKeeps(db: Db, older: set<string>, queue: string, id: string, gen: nat, nextId: string, seed: nat)
    requires Inv(db, older)
    ensures Inv(SweepClaimTimeout(db, queue, id, gen, nextId, seed), older)
  {
    if Swept(db, queue, id, gen) && db.runs[id].activatedGen == gen && nextId !in db.runs {
      var how := Closing(Failed, false, false, By(seed, "fail"));
      if db.tasks[db.runs[id].taskId].infraRetries < INFRA_RETRY_CAP {
        TimeoutRetriesKeeps(db, older, id, nextId, how, seed);
      } else {
        AtCapKeeps(db, older, id, nextId, REASON_INFRA_CAP, how, By(seed, "task-terminal"), seed);
      }
    }
  }

  lemma CancelKeeps(db: Db, older: set<string>, queue: string, taskId: string, deadlineOnly: bool, unlessSaga: bool, seed: nat)
    requires Inv(db, older)
    ensures Inv(Cancel(db, queue, taskId, deadlineOnly, unlessSaga, seed), older)
  {
    if CancelAdmits(db, queue, taskId, deadlineOnly, unlessSaga) {
      var id :| LiveRunOf(db, id, taskId);
      LiveRunIsTop(db, id);
      EndTaskKeeps(db, older, taskId, id, CancelledTask(db.tasks[taskId], By(seed, "cancel")),
                   Closing(Cancelled, false, true, By(seed, "runs")), seed);
    }
  }

  lemma OlderBuildIsEnding(db: Db, older: set<string>, taskId: string, id: string, state: State, text: string, seed: nat)
    requires Inv(db, older) && OlderBuildMayEnd(db, taskId) && !state.Live() && LiveRunOf(db, id, taskId)
    ensures var after := OlderBuildEnds(db, taskId, state, text, seed);
      var how := Closing(state, state == Completed, true, By(seed, "runs"));
      && taskId in after.tasks && after == Ended(db, taskId, after.tasks[taskId], how)
      && Ends(db, taskId, id, after.tasks[taskId], how)
  {
    hide Awaited, Mirrored, Manned, Settled;
    LiveRunIsTop(db, id);
  }

  /** What an ending owes nobody, it owes no more. */
  lemma NobodyIsOwed(db: Db, after: Db, taskId: string, queue: string)
    requires Wakeable(after, {(queue, TaskDone(taskId))}) && forall key :: key in db.waits ==> db.waits[key].event != TaskDone(taskId)
    requires forall key :: key in after.waits ==> key in db.waits && after.waits[key] == db.waits[key]
    ensures Wakeable(after, {})
  {
  }

  lemma OlderBuildOnlyReaps(db: Db, taskId: string, state: State, text: string, seed: nat)
    ensures var after := OlderBuildEnds(db, taskId, state, text, seed);
      forall key :: key in after.waits ==> key in db.waits && after.waits[key] == db.waits[key]
  {
    hide CancelAdmits;
  }

  lemma OlderBuildEndingKeeps(db: Db, older: set<string>, taskId: string, id: string, state: State, text: string, seed: nat)
    requires Inv(db, older) && OlderBuildMayEnd(db, taskId) && !state.Live() && LiveRunOf(db, id, taskId)
    ensures Inv(OlderBuildEnds(db, taskId, state, text, seed), older + {taskId})
  {
    hide OlderBuildEnds, CancelAdmits, Wakeable, NobodyStranded, Carried, Announced, Ends, Sound, Ended, CloseRuns;
    var after := OlderBuildEnds(db, taskId, state, text, seed);
    var how := Closing(state, state == Completed, true, By(seed, "runs"));
    OlderBuildOnlyReaps(db, taskId, state, text, seed);
    OlderBuildIsEnding(db, older, taskId, id, state, text, seed);
    EndIsSound(db, taskId, id, after.tasks[taskId], how);
    EndAwaits(db, older, taskId, id, after.tasks[taskId], how);
    EndAnnounces(db, older, taskId, id, after.tasks[taskId], how);
    NobodyIsOwed(db, after, taskId, after.tasks[taskId].queue);
  }

  /** The deploy rule: an older build's ending leaves nobody waiting, because nobody was. */
  lemma OlderBuildKeeps(db: Db, older: set<string>, taskId: string, state: State, text: string, seed: nat)
    requires Inv(db, older)
    ensures Inv(OlderBuildEnds(db, taskId, state, text, seed), OlderEnding(db, older, taskId, state))
  {
    hide Awaited, Fits, Mirrored, Numbered, Settled;
    if OlderBuildMayEnd(db, taskId) && !state.Live() {
      var id :| LiveRunOf(db, id, taskId);
      OlderBuildEndingKeeps(db, older, taskId, id, state, text, seed);
    }
  }

  // ------------------------------------------------------------------------------------------
  // Revival.

  lemma RetryTaskKeeps(db: Db, older: set<string>, queue: string, taskId: string, top: string, runId: string, seed: nat)
    requires Inv(db, older)
    ensures Inv(RetryTask(db, queue, taskId, top, runId, seed),
                if RetryAdmits(db, queue, taskId, top, runId) then older - {taskId} else older)
  {
    if RetryAdmits(db, queue, taskId, top, runId) {
      var after := RetryTask(db, queue, taskId, top, runId, seed);
      assert after == Start(db, taskId, after.tasks[taskId], runId, after.runs[runId]);
      StartIsSound(db, taskId, top, after.tasks[taskId], runId, after.runs[runId]);
      StartAwaits(db, older, taskId, top, after.tasks[taskId], runId, after.runs[runId]);
    }
  }

  // ------------------------------------------------------------------------------------------
  // Events and awaits.

  lemma RestampKeeps(db: Db, older: set<string>, key: EventKey, stamp: Stamp)
    requires Inv(db, older) && key in db.events
    ensures Inv(Store(db, key, db.events[key].(stamp := stamp)), older)
  {
    hide Sound;
    StoreKeepsSound(db, key, db.events[key].(stamp := stamp));
  }

  lemma EmitKeeps(db: Db, older: set<string>, queue: string, name: string, text: string, seed: nat)
    requires Inv(db, older)
    ensures Inv(EmitEvent(db, queue, name, text, seed), older)
  {
    var key := (queue, FromPort(name));
    if key in db.events {
      RestampKeeps(db, older, key, By(seed, "event"));
      WakeKeeps(Store(db, key, db.events[key].(stamp := By(seed, "event"))), older, queue, FromPort(name), seed);
    } else {
      var event := Event(Json(text), db.now, By(seed, "event"));
      StoreKeepsSound(db, key, event);
      StoreTells(db, older, key, event);
      WakeKeeps(Store(db, key, event), older, queue, FromPort(name), seed);
    }
  }

  lemma AwaitMirrors(db: Db, a: Await, name: EventName, timeoutMs: Option<nat>, seed: nat, id: string)
    requires Sound(db) && AwaitRegisters(db, a, name) && id in db.runs && db.runs[id].state.Live()
    ensures var after := AwaitEvent(db, a, name, timeoutMs, seed);
      after.tasks[db.runs[id].taskId].state == after.runs[id].state
  {
    if id != a.runId && db.runs[id].taskId == a.taskId {
      OnlyLiveRun(db, a.runId, id);
      assert false;
    }
  }

  lemma AwaitKeepsRows(db: Db, a: Await, name: EventName, timeoutMs: Option<nat>, seed: nat)
    requires Sound(db) && AwaitRegisters(db, a, name)
    ensures var after := AwaitEvent(db, a, name, timeoutMs, seed);
      && (forall id :: id in db.runs ==> id in after.runs && SameRun(db.runs[id], after.runs[id]))
      && (forall taskId :: taskId in db.tasks ==>
            taskId in after.tasks && SameBooks(db.tasks[taskId], after.tasks[taskId]))
  {
    ClaimedIsLive(db, a.queue, a.runId, a.token);
  }

  lemma AwaitReshapes(db: Db, a: Await, name: EventName, timeoutMs: Option<nat>, seed: nat)
    requires Sound(db) && AwaitRegisters(db, a, name)
    ensures Reshaped(db, AwaitEvent(db, a, name, timeoutMs, seed))
  {
    AwaitKeepsRows(db, a, name, timeoutMs, seed);
    forall id | id in db.runs && db.runs[id].state.Live()
      ensures var after := AwaitEvent(db, a, name, timeoutMs, seed);
        after.tasks[db.runs[id].taskId].state == after.runs[id].state
    {
      AwaitMirrors(db, a, name, timeoutMs, seed, id);
    }
  }

  /** The wait registered has its waiter asleep in the same step, and every other wait is as it was. */
  lemma AwaitAnswersWaits(db: Db, a: Await, name: EventName, timeoutMs: Option<nat>, seed: nat)
    requires Fits(db) && Mirrored(db) && Wakeable(db, {}) && AwaitRegisters(db, a, name)
    ensures Wakeable(AwaitEvent(db, a, name, timeoutMs, seed), {})
  {
    RunningRunHasNoWait(db, a.runId);
    var after := AwaitEvent(db, a, name, timeoutMs, seed);
    forall key | key in after.waits
      ensures key.0 in after.runs && Sleeper(after.runs[key.0], key.1, after.waits[key])
      ensures StillAhead(after, after.waits[key])
    {
      if key != (a.runId, a.step) {
        assert Sleeper(db.runs[key.0], key.1, db.waits[key]) && StillAhead(db, db.waits[key]);
      }
    }
  }

  lemma AwaitStrandsNobody(db: Db, a: Await, name: EventName, timeoutMs: Option<nat>, seed: nat)
    requires NobodyStranded(db) && AwaitRegisters(db, a, name)
    ensures NobodyStranded(AwaitEvent(db, a, name, timeoutMs, seed))
  {
  }

  lemma AwaitHandsOver(db: Db, older: set<string>, a: Await, name: EventName, timeoutMs: Option<nat>, seed: nat)
    requires Announced(db, older) && Carried(db) && AwaitRegisters(db, a, name)
    ensures Announced(AwaitEvent(db, a, name, timeoutMs, seed), older)
    ensures Carried(AwaitEvent(db, a, name, timeoutMs, seed))
  {
  }

  lemma AwaitKeeps(db: Db, older: set<string>, a: Await, name: EventName, timeoutMs: Option<nat>, seed: nat)
    requires Inv(db, older)
    ensures Inv(AwaitEvent(db, a, name, timeoutMs, seed), older)
  {
    if AwaitRegisters(db, a, name) {
      AwaitReshapes(db, a, name, timeoutMs, seed);
      ReshapeKeeps(db, AwaitEvent(db, a, name, timeoutMs, seed));
      AwaitAnswersWaits(db, a, name, timeoutMs, seed);
      AwaitStrandsNobody(db, a, name, timeoutMs, seed);
      AwaitHandsOver(db, older, a, name, timeoutMs, seed);
    }
  }

  /** What an await may record: how the child of that stamp ended. */
  ghost predicate ReadRight(db: Db, child: string, stamp: Stamp, outcome: Outcome) {
    child in db.tasks && db.tasks[child].stamp == stamp ==> OutcomeOf(db.tasks[child]) == outcome
  }

  lemma RecordedKeeps(db: Db, older: set<string>, child: string, stamp: Stamp, outcome: Outcome, event: Event)
    requires Inv(db, older) && ReadRight(db, child, stamp, outcome) && !outcome.state.Live() && event.payload == Encoded(outcome)
    requires child in db.tasks && db.tasks[child].stamp == stamp && (db.tasks[child].queue, TaskDone(child)) !in db.events
    ensures Inv(Store(db, (db.tasks[child].queue, TaskDone(child)), event), older)
  {
    hide Wakeable, NobodyStranded, Carried, Manned, Mirrored, Numbered, Settled;
    var key := (db.tasks[child].queue, TaskDone(child));
    StoreKeepsSound(db, key, event);
    WakeableOfMore(db, key);
    StoreTells(db, older, key, event);
    NobodyWaitsForTheEnded(db, child, stamp, outcome);
    NobodyIsOwed(db, Store(db, key, event), child, db.tasks[child].queue);
  }

  lemma WakeableOfMore(db: Db, key: EventKey)
    requires Wakeable(db, {})
    ensures Wakeable(db, {key})
  {
  }

  lemma RecordKeeps(db: Db, older: set<string>, a: Await, child: string, stamp: Stamp, outcome: Outcome, seed: nat)
    requires Inv(db, older) && ReadRight(db, child, stamp, outcome) && !outcome.state.Live()
    ensures Inv(RecordTaskDone(db, a, child, stamp, outcome, seed), older)
  {
    hide Inv;
    if RecordAdmits(db, a, child, stamp) {
      RecordedKeeps(db, older, child, stamp, outcome, Event(Encoded(outcome), db.now, By(seed, "materialize")));
    }
  }

  lemma NobodyWaitsForTheEnded(db: Db, child: string, stamp: Stamp, outcome: Outcome)
    requires Wakeable(db, {}) && child in db.tasks && ReadRight(db, child, stamp, outcome) && db.tasks[child].stamp == stamp
    requires !outcome.state.Live()
    ensures forall key :: key in db.waits ==> db.waits[key].event != TaskDone(child)
  {
    forall key | key in db.waits ensures db.waits[key].event != TaskDone(child) {
      assert StillAhead(db, db.waits[key]);
    }
  }
}
