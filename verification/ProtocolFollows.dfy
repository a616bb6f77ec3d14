/**
 * What other batches leave of one invocation's rows: a row that still bears its stamp is as it
 * was left, and so are the task and the waits of a live run that does.
 */
module ProtocolFollows {
  import opened Options
  import opened Tables
  import opened Protocol
  import opened ProtocolInvariant
  import opened ProtocolStarts
  import opened ProtocolSteps
  import opened ProtocolHistory
  import opened ProtocolRuns

  predicate Bears(stamp: Stamp, seed: nat) {
    stamp.By? && stamp.seed == seed
  }

  /** No row carries a stamp of the invocation: its seed is its own. */
  ghost predicate Unspent(db: Db, seed: nat) {
    && (forall id :: id in db.runs ==> !Bears(db.runs[id].stamp, seed))
    && (forall id :: id in db.tasks ==> !Bears(db.tasks[id].stamp, seed))
    && (forall key :: key in db.waits ==> !Bears(db.waits[key].stamp, seed))
    && (forall key :: key in db.events ==> !Bears(db.events[key].stamp, seed))
  }

  /** The waits of one run are the same. */
  ghost predicate SameWaits(db: Db, after: Db, id: string) {
    forall key: WaitKey :: key.0 == id ==>
      (key in after.waits <==> key in db.waits) && (key in db.waits ==> after.waits[key] == db.waits[key])
  }

  /** The run is as it was but for the end of its lease, and if it is live its task and its waits are too. */
  ghost predicate Kept(db: Db, after: Db, id: string)
    requires id in after.runs
  {
    && id in db.runs && after.runs[id].(expiresAt := db.runs[id].expiresAt) == db.runs[id]
    && (db.runs[id].state.Live() ==>
          && SameWaits(db, after, id)
          && (db.runs[id].taskId in db.tasks ==>
                db.runs[id].taskId in after.tasks && after.tasks[db.runs[id].taskId] == db.tasks[db.runs[id].taskId]))
  }

  /** A run keeps its identity, and once it ended it keeps everything. */
  predicate RunStays(run: Run, after: Run) {
    && after.taskId == run.taskId && after.queue == run.queue && after.attempt == run.attempt
    && (!run.state.Live() ==> after == run)
  }

  ghost predicate RunsFollow(db: Db, after: Db, s: nat) {
    && (forall id :: id in db.runs ==> id in after.runs && RunStays(db.runs[id], after.runs[id]))
    && (forall id :: id in after.runs && Bears(after.runs[id].stamp, s) ==> Kept(db, after, id))
  }

  /** A saga that began stays, and so does a task no revival can reach. */
  predicate TaskStays(task: Task, after: Task) {
    && after.queue == task.queue && (task.saga.Some? ==> after.saga == task.saga)
    && (task.state == Completed || task.state == Cancelled ==> after == task)
    && task.infraRetries <= after.infraRetries
  }

  ghost predicate TasksFollow(db: Db, after: Db, s: nat) {
    && (forall id :: id in db.tasks ==> id in after.tasks && TaskStays(db.tasks[id], after.tasks[id]))
    && (forall id :: id in after.tasks && Bears(after.tasks[id].stamp, s) ==>
          id in db.tasks && after.tasks[id].(rollbackOwed := db.tasks[id].rollbackOwed) == db.tasks[id])
  }

  ghost predicate EventsFollow(db: Db, after: Db, s: nat) {
    && (forall key :: key in db.events ==>
          key in after.events && after.events[key].payload == db.events[key].payload
          && (key.1.TaskDone? ==> after.events[key] == db.events[key]))
    && (forall key :: key in after.events && Bears(after.events[key].stamp, s) ==>
          key in db.events && after.events[key] == db.events[key])
  }

  ghost predicate WaitsFollow(db: Db, after: Db, s: nat) {
    forall key :: key in after.waits && Bears(after.waits[key].stamp, s) ==>
      key in db.waits && after.waits[key] == db.waits[key]
  }

  ghost predicate Follows(db: Db, after: Db, s: nat) {
    RunsFollow(db, after, s) && TasksFollow(db, after, s) && EventsFollow(db, after, s) && WaitsFollow(db, after, s)
  }

  lemma KeptOn(db: Db, middle: Db, after: Db, s: nat, id: string)
    requires RunsFollow(db, middle, s) && id in after.runs && id in middle.runs
    requires Kept(middle, after, id) && Bears(after.runs[id].stamp, s)
    ensures Kept(db, after, id)
  {
    assert Kept(db, middle, id);
  }

  lemma RunsFollowOn(db: Db, middle: Db, after: Db, s: nat)
    requires RunsFollow(db, middle, s) && RunsFollow(middle, after, s)
    ensures RunsFollow(db, after, s)
  {
    hide Kept;
    forall id | id in db.runs ensures id in after.runs && RunStays(db.runs[id], after.runs[id]) {
      assert RunStays(db.runs[id], middle.runs[id]) && RunStays(middle.runs[id], after.runs[id]);
    }
    forall id | id in after.runs && Bears(after.runs[id].stamp, s) ensures Kept(db, after, id) {
      assert Kept(middle, after, id);
      KeptIsThere(middle, after, id);
      KeptOn(db, middle, after, s, id);
    }
  }

  lemma KeptIsThere(db: Db, after: Db, id: string)
    requires id in after.runs && Kept(db, after, id)
    ensures id in db.runs
  {
  }

  lemma TasksFollowOn(db: Db, middle: Db, after: Db, s: nat)
    requires TasksFollow(db, middle, s) && TasksFollow(middle, after, s)
    ensures TasksFollow(db, after, s)
  {
    forall id | id in db.tasks ensures id in after.tasks && TaskStays(db.tasks[id], after.tasks[id]) {
      assert TaskStays(db.tasks[id], middle.tasks[id]) && TaskStays(middle.tasks[id], after.tasks[id]);
    }
  }

  lemma FollowsOn(db: Db, middle: Db, after: Db, s: nat)
    requires Follows(db, middle, s) && Follows(middle, after, s)
    ensures Follows(db, after, s)
  {
    hide RunsFollow, TasksFollow;
    RunsFollowOn(db, middle, after, s);
    TasksFollowOn(db, middle, after, s);
  }

  lemma FollowsItself(db: Db, s: nat)
    ensures Follows(db, db, s)
  {
  }

  // ------------------------------------------------------------------------------------------
  // What the batches share.

  lemma StoreFollows(db: Db, key: EventKey, event: Event, s: nat)
    requires !Bears(event.stamp, s)
    requires key in db.events ==> event.payload == db.events[key].payload && !key.1.TaskDone?
    ensures Follows(db, Store(db, key, event), s)
  {
  }

  lemma WakeFollowsRuns(db: Db, queue: string, name: EventName, seed: nat, s: nat)
    requires (queue, name) in db.events && Mirrored(db) && seed != s
    ensures RunsFollow(db, Wake(db, queue, name, seed), s)
  {
    var after := Wake(db, queue, name, seed);
    forall id | id in after.runs && Bears(after.runs[id].stamp, s) ensures Kept(db, after, id) {
      if db.runs[id].state.Live() && db.runs[id].taskId in db.tasks {
        forall other | other in Woken(db, queue, name) && db.runs[other].taskId == db.runs[id].taskId ensures other == id {
          WokenIsTheLiveRun(db, queue, name, id, other);
        }
      }
    }
  }

  lemma WakeFollows(db: Db, queue: string, name: EventName, seed: nat, s: nat)
    requires (queue, name) in db.events && Mirrored(db) && seed != s
    ensures Follows(db, Wake(db, queue, name, seed), s)
  {
    WakeFollowsRuns(db, queue, name, seed, s);
    hide RunsFollow;
  }

  /** A task's one live run closes, so no live run of it keeps its stamp. */
  lemma EndedFollowsRuns(db: Db, taskId: string, ended: Task, how: Closing, s: nat)
    requires taskId in db.tasks && !Bears(how.stamp, s)
    ensures RunsFollow(db, Ended(db, taskId, ended, how), s)
  {
  }

  lemma EndedFollows(db: Db, taskId: string, ended: Task, how: Closing, s: nat)
    requires taskId in db.tasks && !Bears(how.stamp, s) && !Bears(ended.stamp, s) && TaskStays(db.tasks[taskId], ended)
    ensures Follows(db, Ended(db, taskId, ended, how), s)
  {
    hide RunsFollow;
    EndedFollowsRuns(db, taskId, ended, how, s);
  }

  lemma EndedIsMirrored(db: Db, taskId: string, ended: Task, how: Closing)
    requires Mirrored(db) && taskId in db.tasks && !how.state.Live()
    ensures Mirrored(Ended(db, taskId, ended, how))
  {
    var after := Ended(db, taskId, ended, how);
    forall id, other ensures LiveRunOf(after, id, other) == (LiveRunOf(db, id, other) && other != taskId) {
    }
  }

  lemma EndTaskFollows(db: Db, taskId: string, ended: Task, how: Closing, seed: nat, s: nat)
    requires Mirrored(db) && taskId in db.tasks && TaskStays(db.tasks[taskId], ended) && !how.state.Live()
    requires seed != s && how.stamp.By? && how.stamp.seed == seed && ended.stamp.By? && ended.stamp.seed == seed
    ensures Follows(db, EndTask(db, taskId, ended, how, seed), s)
  {
    hide Follows, Mirrored, TaskStays, Wake;
    var closed := Ended(db, taskId, ended, how);
    var key := (ended.queue, TaskDone(taskId));
    EndedFollows(db, taskId, ended, how, s);
    EndedIsMirrored(db, taskId, ended, how);
    if key !in db.events {
      var event := Event(Encoded(OutcomeOf(ended)), db.now, By(seed, "task-done"));
      var stored := Store(closed, key, event);
      StoreFollows(closed, key, event, s);
      StoreIsMirrored(closed, key, event);
      WakeFollows(stored, ended.queue, TaskDone(taskId), seed, s);
      FollowsOn(db, closed, stored, s);
      FollowsOn(db, stored, EndTask(db, taskId, ended, how, seed), s);
    }
  }

  lemma StoreIsMirrored(db: Db, key: EventKey, event: Event)
    requires Mirrored(db)
    ensures Mirrored(Store(db, key, event))
  {
    forall id, taskId ensures LiveRunOf(Store(db, key, event), id, taskId) == LiveRunOf(db, id, taskId) {
    }
  }

  lemma SucceedFollows(db: Db, taskId: string, next: Task, how: Closing, id: string, run: Run, seed: nat, s: nat)
    requires taskId in db.tasks && TaskStays(db.tasks[taskId], next) && id !in db.runs
    requires seed != s && how.stamp.By? && how.stamp.seed == seed && run.stamp.By? && run.stamp.seed == seed
    requires next.stamp.By? && next.stamp.seed == seed
    ensures Follows(db, Succeed(db, taskId, next, how, id, run), s)
  {
  }

  /** Of the task of a running run, no other run is live. */
  lemma OthersHaveEnded(db: Db, id: string)
    requires Mirrored(db) && id in db.runs && db.runs[id].state.Live()
    ensures forall other :: other in db.runs && other != id && db.runs[other].taskId == db.runs[id].taskId ==>
              !db.runs[other].state.Live()
  {
    forall other | other in db.runs && other != id && db.runs[other].taskId == db.runs[id].taskId
      ensures !db.runs[other].state.Live()
    {
      if db.runs[other].state.Live() { OnlyLiveRun(db, id, other); }
    }
  }

  lemma MoveFollowsRuns(db: Db, id: string, run: Run, task: Task, seed: nat, s: nat)
    requires Mirrored(db) && id in db.runs && run.taskId in db.tasks && db.runs[id].state == Running
    requires RunStays(db.runs[id], run) && seed != s && run.stamp.By? && run.stamp.seed == seed
    ensures RunsFollow(db, Move(db, id, run, task), s)
  {
    hide Mirrored;
    OthersHaveEnded(db, id);
  }

  lemma MoveFollows(db: Db, id: string, run: Run, task: Task, seed: nat, s: nat)
    requires Mirrored(db) && id in db.runs && run.taskId in db.tasks && db.runs[id].state == Running
    requires RunStays(db.runs[id], run) && TaskStays(db.tasks[run.taskId], task) && seed != s
    requires run.stamp.By? && run.stamp.seed == seed
    requires (task.stamp.By? && task.stamp.seed == seed) || task.(rollbackOwed := db.tasks[run.taskId].rollbackOwed) == db.tasks[run.taskId]
    ensures Follows(db, Move(db, id, run, task), s)
  {
    hide RunsFollow, Mirrored;
    MoveFollowsRuns(db, id, run, task, seed, s);
  }

  lemma ParkFollowsRuns(db: Db, id: string, run: Run, stamp: Stamp, seed: nat, s: nat)
    requires Mirrored(db) && id in db.runs && db.runs[id].state == Running && Owns(db, db.runs[id])
    requires RunStays(db.runs[id], run) && seed != s && run.stamp.By? && run.stamp.seed == seed
    ensures RunsFollow(db, Park(db, id, run, stamp), s)
  {
    hide Mirrored;
    OthersHaveEnded(db, id);
  }

  lemma ParkFollows(db: Db, id: string, run: Run, stamp: Stamp, seed: nat, s: nat)
    requires Mirrored(db) && id in db.runs && db.runs[id].state == Running && Owns(db, db.runs[id])
    requires db.tasks[db.runs[id].taskId].state.Live() && RunStays(db.runs[id], run) && seed != s
    requires run.stamp.By? && run.stamp.seed == seed && stamp.By? && stamp.seed == seed
    ensures Follows(db, Park(db, id, run, stamp), s)
  {
    hide RunsFollow, Mirrored;
    ParkFollowsRuns(db, id, run, stamp, seed, s);
  }

  /** A task with no live run starts one. */
  lemma StartFollows(db: Db, taskId: string, next: Task, id: string, run: Run, seed: nat, s: nat)
    requires taskId in db.tasks ==> TaskStays(db.tasks[taskId], next)
    requires (forall other :: !LiveRunOf(db, other, taskId)) && id !in db.runs && seed != s
    requires next.stamp.By? && next.stamp.seed == seed && run.stamp.By? && run.stamp.seed == seed
    ensures Follows(db, Start(db, taskId, next, id, run), s)
  {
    forall other | other in db.runs && db.runs[other].taskId == taskId ensures !db.runs[other].state.Live() {
      assert !LiveRunOf(db, other, taskId);
    }
  }

  lemma RunAloneFollows(db: Db, id: string, run: Run, s: nat)
    requires id in db.runs && RunStays(db.runs[id], run)
    requires !Bears(run.stamp, s) || run.(expiresAt := db.runs[id].expiresAt) == db.runs[id]
    ensures Follows(db, db.(runs := db.runs[id := run]), s)
  {
  }

  // ------------------------------------------------------------------------------------------
  // Each batch.

  lemma CompleteFollows(db: Db, older: set<string>, queue: string, id: string, token: string, result: string, seed: nat, s: nat)
    requires Inv(db, older) && seed != s
    ensures Follows(db, Complete(db, queue, id, token, result, seed), s)
  {
    FollowsItself(db, s);
    if CompleteAdmits(db, queue, id, token) {
      var task := db.tasks[db.runs[id].taskId];
      EndTaskFollows(db, db.runs[id].taskId,
                     task.(state := Completed, result := Some(result), cancelAt := None, stamp := By(seed, "task")),
                     Closing(Completed, true, true, By(seed, "complete")), seed, s);
    }
  }

  lemma CancelFollows(db: Db, older: set<string>, queue: string, taskId: string, deadlineOnly: bool, unlessSaga: bool,
                      seed: nat, s: nat)
    requires Inv(db, older) && seed != s
    ensures Follows(db, Cancel(db, queue, taskId, deadlineOnly, unlessSaga, seed), s)
  {
    FollowsItself(db, s);
    if CancelAdmits(db, queue, taskId, deadlineOnly, unlessSaga) {
      EndTaskFollows(db, taskId, CancelledTask(db.tasks[taskId], By(seed, "cancel")),
                     Closing(Cancelled, false, true, By(seed, "runs")), seed, s);
    }
  }

  lemma OlderBuildFollows(db: Db, taskId: string, state: State, text: string, seed: nat, s: nat)
    requires seed != s
    ensures Follows(db, OlderBuildEnds(db, taskId, state, text, seed), s)
  {
    FollowsItself(db, s);
    if OlderBuildMayEnd(db, taskId) && !state.Live() {
      var how := Closing(state, state == Completed, true, By(seed, "runs"));
      var ended := OlderBuildEnds(db, taskId, state, text, seed).tasks[taskId];
      assert OlderBuildEnds(db, taskId, state, text, seed) == Ended(db, taskId, ended, how);
      EndedFollows(db, taskId, ended, how, s);
    }
  }

  lemma FailFollows(db: Db, older: set<string>, f: Failure, seed: nat, s: nat)
    requires Inv(db, older) && seed != s
    ensures Follows(db, Fail(db, f, seed), s)
  {
    hide FailRetries, FailRollsBack, FailEnds, Current;
    FollowsItself(db, s);
    if FailAdmits(db, f) {
      match AfterFailure(db.tasks[db.runs[f.runId].taskId], db.runs[f.runId], f)
      case Retries => FailRetriesFollows(db, f, seed, s);
      case RollsBack(enters) => FailRollsBackFollows(db, f, enters, seed, s);
      case EndsTask => FailEndsFollows(db, f, seed, s);
    }
  }

  lemma FailRetriesFollows(db: Db, f: Failure, seed: nat, s: nat)
    requires FailAdmits(db, f) && seed != s
    ensures Follows(db, FailRetries(db, f, seed), s)
  {
    hide Follows, Succeed, Current, LiveClaim;
    FailAdmitsOwner(db, f);
    var next, successor := FailRetriesWrites(db, f, seed);
    SucceedFollows(db, db.runs[f.runId].taskId, next, FailClosing(seed), f.nextId, successor, seed, s);
  }

  lemma FailAdmitsOwner(db: Db, f: Failure)
    requires FailAdmits(db, f)
    ensures f.runId in db.runs && Owns(db, db.runs[f.runId]) && f.nextId !in db.runs
    ensures db.tasks[db.runs[f.runId].taskId].state.Live() && db.runs[f.runId].state == Running
  {
  }

  lemma FailRollsBackFollows(db: Db, f: Failure, enters: bool, seed: nat, s: nat)
    requires FailAdmits(db, f) && seed != s && (enters ==> db.tasks[db.runs[f.runId].taskId].saga.None?)
    ensures Follows(db, FailRollsBack(db, f, enters, seed), s)
  {
    hide Follows, Succeed, Current, LiveClaim;
    FailAdmitsOwner(db, f);
    var run := db.runs[f.runId];
    var saga, state, due := FailRollsBackWrites(db, f, enters, seed);
    SucceedFollows(db, run.taskId, RollingBack(db.tasks[run.taskId].(saga := saga), run, state, seed), FailClosing(seed),
                   f.nextId, Successor(run, state, due, By(seed, "rollback-pass")), seed, s);
  }

  lemma FailEndsFollows(db: Db, f: Failure, seed: nat, s: nat)
    requires Mirrored(db) && FailAdmits(db, f) && seed != s
    ensures Follows(db, FailEnds(db, f, seed), s)
  {
    hide Follows, EndTask, Current, LiveClaim, Mirrored;
    FailAdmitsOwner(db, f);
    var run := db.runs[f.runId];
    EndTaskFollows(db, run.taskId,
      db.tasks[run.taskId].(attempts := UserAttempts(run, db.tasks[run.taskId]), state := Failed, reason := Some(f.reason),
        stamp := By(seed, if f.retryMs.Some? && !f.rollback then "task-terminal" else "task")), FailClosing(seed), seed, s);
  }

  lemma AtCapFollows(db: Db, id: string, passId: string, reason: string, how: Closing, terminal: Stamp, seed: nat, s: nat)
    requires Mirrored(db) && id in db.runs && Owns(db, db.runs[id]) && passId !in db.runs && how.state == Failed
    requires db.tasks[db.runs[id].taskId].state.Live() && seed != s
    requires terminal.By? && terminal.seed == seed && how.stamp.By? && how.stamp.seed == seed
    ensures Follows(db, AtCap(db, id, passId, reason, how, terminal, seed), s)
  {
    hide Follows, EndTask, Succeed, Mirrored;
    var run := db.runs[id];
    var task := db.tasks[run.taskId];
    if EntersSaga(task) {
      SucceedFollows(db, run.taskId, RollingBack(task.(saga := Some(reason)), run, Pending, seed), how, passId,
                     Successor(run, Pending, db.now, By(seed, "rollback-pass")), seed, s);
    } else {
      EndTaskFollows(db, run.taskId, task.(state := Failed, reason := Some(reason), stamp := terminal), how, seed, s);
    }
  }

  lemma LostLaunchFollows(db: Db, older: set<string>, queue: string, id: string, gen: nat, passId: string, seed: nat, s: nat)
    requires Inv(db, older) && seed != s
    ensures Follows(db, SweepLostLaunch(db, queue, id, gen, passId, seed), s)
  {
    FollowsItself(db, s);
    if Swept(db, queue, id, gen) && passId !in db.runs && db.runs[id].activatedGen < gen {
      if db.runs[id].relaunches < RELAUNCH_CAP {
        var after := SweepLostLaunch(db, queue, id, gen, passId, seed);
        MoveFollows(db, id, after.runs[id], after.tasks[db.runs[id].taskId], seed, s);
      } else {
        AtCapFollows(db, id, passId, REASON_RELAUNCH_CAP, Closing(Failed, false, true, By(seed, "cap")),
                     By(seed, "task-fail"), seed, s);
      }
    }
  }

  lemma ClaimTimeoutFollows(db: Db, older: set<string>, queue: string, id: string, gen: nat, nextId: string, seed: nat, s: nat)
    requires Inv(db, older) && seed != s
    ensures Follows(db, SweepClaimTimeout(db, queue, id, gen, nextId, seed), s)
  {
    FollowsItself(db, s);
    if Swept(db, queue, id, gen) && nextId !in db.runs && db.runs[id].activatedGen == gen {
      var how := Closing(Failed, false, false, By(seed, "fail"));
      if db.tasks[db.runs[id].taskId].infraRetries < INFRA_RETRY_CAP {
        var next, successor := TimeoutRetriesWrites(db, id, nextId, how, seed);
        SucceedFollows(db, db.runs[id].taskId, next, how, nextId, successor, seed, s);
      } else {
        AtCapFollows(db, id, nextId, REASON_INFRA_CAP, how, By(seed, "task-terminal"), seed, s);
      }
    }
  }

  lemma EmitFollows(db: Db, older: set<string>, queue: string, name: string, text: string, seed: nat, s: nat)
    requires Inv(db, older) && seed != s
    ensures Follows(db, EmitEvent(db, queue, name, text, seed), s)
  {
    hide Follows, Wake;
    var key := (queue, FromPort(name));
    var event := if key in db.events then db.events[key].(stamp := By(seed, "event"))
                 else Event(Json(text), db.now, By(seed, "event"));
    StoreFollows(db, key, event, s);
    StoreIsMirrored(db, key, event);
    WakeFollows(Store(db, key, event), queue, FromPort(name), seed, s);
    FollowsOn(db, Store(db, key, event), EmitEvent(db, queue, name, text, seed), s);
  }

  lemma ActivateFollows(db: Db, older: set<string>, queue: string, id: string, token: string, gen: nat, seed: nat, s: nat)
    requires Inv(db, older) && seed != s
    ensures Follows(db, Activate(db, queue, id, token, gen, seed), s)
  {
    FollowsItself(db, s);
    if Receipt(db, queue, id, token, gen) {
      var after := Activate(db, queue, id, token, gen, seed);
      MoveFollows(db, id, after.runs[id], after.tasks[db.runs[id].taskId], seed, s);
    }
  }

  lemma LeaseFollows(db: Db, queue: string, id: string, token: string, ms: nat, seed: nat, s: nat)
    requires seed != s
    ensures Follows(db, Heartbeat(db, queue, id, token, ms, seed), s)
    ensures Follows(db, ExpireLeaseNow(db, queue, id, token), s)
  {
    FollowsItself(db, s);
    if LiveClaim(db, queue, id, token) { RunAloneFollows(db, id, Heartbeat(db, queue, id, token, ms, seed).runs[id], s); }
    if id in db.runs { RunAloneFollows(db, id, ExpireLeaseNow(db, queue, id, token).runs[id], s); }
  }

  lemma CheckpointFollows(db: Db, older: set<string>, queue: string, id: string, token: string, ms: nat, owed: bool,
                          seed: nat, s: nat)
    requires Inv(db, older) && seed != s
    ensures Follows(db, SetCheckpoint(db, queue, id, token, ms, owed, seed), s)
  {
    FollowsItself(db, s);
    if LiveClaim(db, queue, id, token) {
      var after := SetCheckpoint(db, queue, id, token, ms, owed, seed);
      MoveFollows(db, id, after.runs[id], after.tasks[db.runs[id].taskId], seed, s);
    }
  }

  lemma SuspendFollows(db: Db, older: set<string>, queue: string, id: string, token: string, wakeAt: int, marker: bool,
                       seed: nat, s: nat)
    requires Inv(db, older) && seed != s
    ensures Follows(db, Suspend(db, queue, id, token, wakeAt, marker, seed), s)
  {
    FollowsItself(db, s);
    if MayPark(db, queue, id, token) && !(marker && db.tasks[db.runs[id].taskId].saga.Some?) {
      ParkFollows(db, id, Suspend(db, queue, id, token, wakeAt, marker, seed).runs[id], By(seed, "task-mirror"), seed, s);
    }
  }

  lemma DeferFollows(db: Db, older: set<string>, queue: string, id: string, token: string, gen: nat, wakeAt: int,
                     seed: nat, s: nat)
    requires Inv(db, older) && seed != s
    ensures Follows(db, DeferLaunch(db, queue, id, token, gen, wakeAt, seed), s)
  {
    FollowsItself(db, s);
    if Receipt(db, queue, id, token, gen) {
      ParkFollows(db, id, DeferLaunch(db, queue, id, token, gen, wakeAt, seed).runs[id], By(seed, "task-mirror"), seed, s);
    }
  }

  lemma SpawnFollows(db: Db, older: set<string>, sp: Spawning, seed: nat, s: nat)
    requires Inv(db, older) && seed != s
    ensures Follows(db, Spawn(db, sp, seed), s)
  {
    FollowsItself(db, s);
    if SpawnAdmits(db, sp) {
      var after := Spawn(db, sp, seed);
      forall other ensures !LiveRunOf(db, other, sp.taskId) {
        if other in db.runs { assert Owns(db, db.runs[other]); }
      }
      StartFollows(db, sp.taskId, after.tasks[sp.taskId], sp.runId, after.runs[sp.runId], seed, s);
    }
  }

  lemma ReviveFollows(db: Db, queue: string, taskId: string, top: string, runId: string, seed: nat, s: nat)
    requires seed != s
    ensures Follows(db, RetryTask(db, queue, taskId, top, runId, seed), s)
  {
    FollowsItself(db, s);
    if RetryAdmits(db, queue, taskId, top, runId) {
      var after := RetryTask(db, queue, taskId, top, runId, seed);
      StartFollows(db, taskId, after.tasks[taskId], runId, after.runs[runId], seed, s);
    }
  }

  lemma RecordFollows(db: Db, a: Await, child: string, stamp: Stamp, outcome: Outcome, seed: nat, s: nat)
    requires seed != s
    ensures Follows(db, RecordTaskDone(db, a, child, stamp, outcome, seed), s)
  {
    FollowsItself(db, s);
    if RecordAdmits(db, a, child, stamp) {
      StoreFollows(db, (db.tasks[child].queue, TaskDone(child)), Event(Encoded(outcome), db.now, By(seed, "materialize")), s);
    }
  }

  lemma ClaimFollows(db: Db, older: set<string>, queue: string, token: string, leaseMs: nat, limit: nat, picked: set<string>,
                     seed: nat, s: nat)
    requires Inv(db, older) && seed != s
    ensures Follows(db, Claim(db, queue, token, leaseMs, limit, picked, seed), s)
  {
    FollowsItself(db, s);
    if ClaimAdmits(db, queue, token, leaseMs, limit, picked) {
      ClaimFollowsRuns(db, older, queue, token, leaseMs, limit, picked, seed, s);
      ClaimFollowsTasks(db, older, queue, token, leaseMs, limit, picked, seed, s);
    }
  }

  lemma ClaimFollowsRuns(db: Db, older: set<string>, queue: string, token: string, leaseMs: nat, limit: nat,
                         picked: set<string>, seed: nat, s: nat)
    requires Inv(db, older) && seed != s && ClaimAdmits(db, queue, token, leaseMs, limit, picked)
    ensures RunsFollow(db, Claim(db, queue, token, leaseMs, limit, picked, seed), s)
  {
    var after := Claim(db, queue, token, leaseMs, limit, picked, seed);
    forall id | id in db.runs ensures RunStays(db.runs[id], after.runs[id]) {
      assert id in picked ==> Claimable(db, queue, id);
    }
    forall id | id in after.runs && Bears(after.runs[id].stamp, s) ensures Kept(db, after, id) {
      if db.runs[id].state.Live() {
        forall other | other in picked && other in db.runs && db.runs[other].taskId == db.runs[id].taskId ensures other == id {
          assert Claimable(db, queue, other);
          OnlyLiveRun(db, id, other);
        }
      }
    }
  }

  lemma ClaimFollowsTasks(db: Db, older: set<string>, queue: string, token: string, leaseMs: nat, limit: nat,
                          picked: set<string>, seed: nat, s: nat)
    requires Inv(db, older) && seed != s && ClaimAdmits(db, queue, token, leaseMs, limit, picked)
    ensures TasksFollow(db, Claim(db, queue, token, leaseMs, limit, picked, seed), s)
  {
    hide Inv;
    forall id | id in db.tasks
      ensures var after := Claim(db, queue, token, leaseMs, limit, picked, seed);
        after.tasks[id] == db.tasks[id]
        || (after.tasks[id] == db.tasks[id].(state := Running, stamp := By(seed, "task-book")) && db.tasks[id].state.Live())
    {
      forall run | run in picked && run in db.runs && db.runs[run].taskId == id ensures db.tasks[id].state.Live() {
        assert Claimable(db, queue, run);
      }
    }
  }

  lemma AwaitMovesOne(db: Db, a: Await, name: EventName, timeoutMs: Option<nat>, seed: nat)
    requires AwaitRegisters(db, a, name)
    ensures var after := AwaitEvent(db, a, name, timeoutMs, seed);
      && after.runs.Keys == db.runs.Keys && after.tasks.Keys == db.tasks.Keys
      && (forall id :: id in db.runs && id != a.runId ==> after.runs[id] == db.runs[id])
      && (forall id :: id in db.tasks && id != a.taskId ==> after.tasks[id] == db.tasks[id])
      && (forall key: WaitKey :: key.0 != a.runId ==>
            (key in after.waits <==> key in db.waits) && (key in db.waits ==> after.waits[key] == db.waits[key]))
      && a.runId in db.runs && RunStays(db.runs[a.runId], after.runs[a.runId]) && after.runs[a.runId].stamp == By(seed, "park")
      && db.runs[a.runId].state == Running && db.runs[a.runId].taskId == a.taskId
  {
    hide ChildAdmits, Eligible;
  }

  lemma AwaitFollowsRuns(db: Db, older: set<string>, a: Await, name: EventName, timeoutMs: Option<nat>, seed: nat, s: nat)
    requires Inv(db, older) && seed != s && AwaitRegisters(db, a, name)
    ensures RunsFollow(db, AwaitEvent(db, a, name, timeoutMs, seed), s)
  {
    hide AwaitRegisters, AwaitEvent, Fits, Manned, Numbered, Settled, Awaited;
    var after := AwaitEvent(db, a, name, timeoutMs, seed);
    AwaitMovesOne(db, a, name, timeoutMs, seed);
    forall id | id in after.runs && Bears(after.runs[id].stamp, s) ensures Kept(db, after, id) {
      assert id != a.runId;
      if db.runs[id].state.Live() && db.runs[id].taskId == a.taskId { OnlyLiveRun(db, a.runId, id); }
    }
  }

  lemma AwaitFollows(db: Db, older: set<string>, a: Await, name: EventName, timeoutMs: Option<nat>, seed: nat, s: nat)
    requires Inv(db, older) && seed != s
    ensures Follows(db, AwaitEvent(db, a, name, timeoutMs, seed), s)
  {
    hide RunsFollow, Inv, ChildAdmits;
    FollowsItself(db, s);
    if AwaitRegisters(db, a, name) {
      AwaitFollowsRuns(db, older, a, name, timeoutMs, seed, s);
    }
  }

  // ------------------------------------------------------------------------------------------
  // Every step.

  lemma EndingFollows(w: World, step: Step, s: nat)
    requires Inv(w.db, w.older) && w.seed != s
    requires step.Completes? || step.Fails? || step.Cancels? || step.OlderBuild? || step.SweepsLaunch? || step.SweepsClaim?
    ensures Follows(w.db, Apply(w, step), s)
  {
    hide Follows, Inv, Complete, Fail, SweepLostLaunch, SweepClaimTimeout, Cancel, OlderBuildEnds;
    var db, older, seed := w.db, w.older, w.seed;
    match step
    case Completes(queue, id, token, result) => CompleteFollows(db, older, queue, id, token, result, seed, s);
    case Fails(f) => FailFollows(db, older, f, seed, s);
    case Cancels(queue, taskId, deadlineOnly, unlessSaga) =>
      CancelFollows(db, older, queue, taskId, deadlineOnly, unlessSaga, seed, s);
    case OlderBuild(taskId, state, text) => OlderBuildFollows(db, taskId, state, text, seed, s);
    case SweepsLaunch(queue, id, gen, passId) => LostLaunchFollows(db, older, queue, id, gen, passId, seed, s);
    case SweepsClaim(queue, id, gen, nextId) => ClaimTimeoutFollows(db, older, queue, id, gen, nextId, seed, s);
  }

  lemma WorkerFollows(w: World, step: Step, s: nat)
    requires Inv(w.db, w.older) && w.seed != s
    requires step.Activates? || step.Heartbeats? || step.Expires? || step.Checkpoints? || step.Suspends? || step.Defers?
    ensures Follows(w.db, Apply(w, step), s)
  {
    hide Follows, Inv, Activate, Heartbeat, ExpireLeaseNow, SetCheckpoint, Suspend, DeferLaunch;
    var db, older, seed := w.db, w.older, w.seed;
    match step
    case Activates(queue, id, token, gen) => ActivateFollows(db, older, queue, id, token, gen, seed, s);
    case Heartbeats(queue, id, token, extendMs) => LeaseFollows(db, queue, id, token, extendMs, seed, s);
    case Expires(queue, id, token) => LeaseFollows(db, queue, id, token, 0, seed, s);
    case Checkpoints(queue, id, token, extendMs, owed) =>
      CheckpointFollows(db, older, queue, id, token, extendMs, owed, seed, s);
    case Suspends(queue, id, token, wakeAt, marker) => SuspendFollows(db, older, queue, id, token, wakeAt, marker, seed, s);
    case Defers(queue, id, token, gen, wakeAt) => DeferFollows(db, older, queue, id, token, gen, wakeAt, seed, s);
  }

  lemma OpeningFollows(w: World, step: Step, s: nat)
    requires Inv(w.db, w.older) && w.seed != s
    requires step.Tick? || step.Spawns? || step.Claims? || step.Revives? || step.Emits? || step.Awaits? || step.Reads? || step.Records?
    ensures Follows(w.db, Apply(w, step), s)
  {
    hide Follows, Inv, Spawn, Claim, RetryTask, EmitEvent, AwaitEvent, RecordTaskDone;
    var db, older, seed := w.db, w.older, w.seed;
    FollowsItself(db, s);
    match step
    case Tick(ms) => LaterFollows(db, ms, s);
    case Spawns(sp) => SpawnFollows(db, older, sp, seed, s);
    case Claims(queue, token, leaseMs, limit, picked) => ClaimFollows(db, older, queue, token, leaseMs, limit, picked, seed, s);
    case Revives(queue, taskId, top, runId) => ReviveFollows(db, queue, taskId, top, runId, seed, s);
    case Emits(queue, name, text) => EmitFollows(db, older, queue, name, text, seed, s);
    case Awaits(a, event, timeoutMs) => AwaitFollows(db, older, a, event, timeoutMs, seed, s);
    case Reads(child) =>
    case Records(a, read) => RecordFollows(db, a, read.child, read.stamp, read.outcome, seed, s);
  }

  /** Whatever the step, it leaves the rows of another invocation as they were. */
  lemma StepFollows(w: World, step: Step, s: nat)
    requires Inv(w.db, w.older) && w.seed != s
    ensures Follows(w.db, Apply(w, step), s)
  {
    hide Follows, Inv, Apply;
    if step.Completes? || step.Fails? || step.Cancels? || step.OlderBuild? || step.SweepsLaunch? || step.SweepsClaim? {
      EndingFollows(w, step, s);
    } else if step.Activates? || step.Heartbeats? || step.Expires? || step.Checkpoints? || step.Suspends? || step.Defers? {
      WorkerFollows(w, step, s);
    } else {
      OpeningFollows(w, step, s);
    }
  }

  lemma LaterFollows(db: Db, ms: nat, s: nat)
    ensures Follows(db, Later(db, ms), s)
  {
  }

  // ------------------------------------------------------------------------------------------
  // Whole histories.

  /** Other invocations spend none of this one's stamps. */
  lemma UnspentStays(db: Db, after: Db, s: nat)
    requires Follows(db, after, s) && Unspent(db, s)
    ensures Unspent(after, s)
  {
  }

  lemma {:induction false} HistoryFollows(w: World, steps: seq<Step>, s: nat)
    requires WorldInv(w) && s < w.seed
    ensures Follows(w.db, After(w, steps).db, s)
    decreases |steps|
  {
    FollowsItself(w.db, s);
    if steps != [] {
      StepFollows(w, steps[0], s);
      StepKeeps(w, steps[0]);
      HistoryFollows(Next(w, steps[0]), steps[1..], s);
      FollowsOn(w.db, Next(w, steps[0]).db, After(w, steps).db, s);
    }
  }

  /** Neither the next invocation nor any after it finds a stamp of its own. */
  ghost predicate AllUnspent(w: World) {
    forall s :: s >= w.seed ==> Unspent(w.db, s)
  }

  lemma {:induction false} SeedsAreSpentInTurn(w: World, steps: seq<Step>)
    requires WorldInv(w) && AllUnspent(w)
    ensures AllUnspent(After(w, steps))
    decreases |steps|
  {
    if steps != [] {
      var next := Next(w, steps[0]);
      forall s | s >= next.seed ensures Unspent(next.db, s) {
        StepFollows(w, steps[0], s);
        UnspentStays(w.db, next.db, s);
      }
      StepKeeps(w, steps[0]);
      SeedsAreSpentInTurn(next, steps[1..]);
    }
  }

  /** In every history a batch comes under a seed no row bears. */
  lemma ReachableIsUnspent(now: int, steps: seq<Step>)
    ensures AllUnspent(After(Empty(now), steps))
  {
    EmptyIsSound(now);
    SeedsAreSpentInTurn(Empty(now), steps);
  }
}
