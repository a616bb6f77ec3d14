/**
 * Batches as their statements run, in order, each over what the one before it left. A batch
 * delivered twice runs all of them twice.
 */
module Batches {
  import opened Options
  import opened Tables
  import opened Protocol
  import opened ProtocolInvariant
  import opened ProtocolSteps
  import opened ProtocolFollows
  import opened Statements
  import ProtocolEffects
  import ProtocolExact

  // ------------------------------------------------------------------------------------------
  // The tail every terminal batch ends with.

  /** The completion event of a task that ended under `fence`, and the wake it owes. */
  function Tail(db: Db, queue: string, taskId: string, fence: Stamp, outcome: Outcome, seed: nat): Db {
    Told(db.(events := EndingRecorded(db, queue, taskId, fence, outcome, seed)), queue, TaskDone(taskId),
         By(seed, "task-done"), seed)
  }

  /** The completion event is not one this batch stored. */
  predicate Untold(db: Db, queue: string, taskId: string, seed: nat) {
    !Fired(db, queue, TaskDone(taskId), By(seed, "task-done"))
  }

  lemma TailAnnounces(db: Db, queue: string, taskId: string, fence: Stamp, outcome: Outcome, seed: nat)
    requires NoneHalfWoken(db, seed) && Untold(db, queue, taskId, seed)
    requires (taskId in db.tasks && db.tasks[taskId].queue == queue && db.tasks[taskId].stamp == fence)
    ensures Tail(db, queue, taskId, fence, outcome, seed) == Announce(db, queue, taskId, outcome, seed)
  {
    var recorded := db.(events := EndingRecorded(db, queue, taskId, fence, outcome, seed));
    TellingIsWaking(recorded, queue, TaskDone(taskId), By(seed, "task-done"), seed);
  }

  /** A batch that ended nothing records nothing and tells nobody. */
  lemma TailIsSilent(db: Db, queue: string, taskId: string, fence: Stamp, outcome: Outcome, seed: nat)
    requires NoneHalfWoken(db, seed) && Untold(db, queue, taskId, seed)
    requires taskId in db.tasks ==> db.tasks[taskId].stamp != fence
    ensures Tail(db, queue, taskId, fence, outcome, seed) == db
  {
    var recorded := db.(events := EndingRecorded(db, queue, taskId, fence, outcome, seed));
    TellingIsWaking(recorded, queue, TaskDone(taskId), By(seed, "task-done"), seed);
  }

  lemma TailTells(db: Db, queue: string, taskId: string, fence: Stamp, outcome: Outcome, seed: nat)
    requires NoneHalfWoken(db, seed) && Untold(db, queue, taskId, seed) && taskId in db.tasks && db.tasks[taskId].queue == queue
    ensures Tail(db, queue, taskId, fence, outcome, seed)
         == if db.tasks[taskId].stamp == fence then Announce(db, queue, taskId, outcome, seed) else db
  {
    if db.tasks[taskId].stamp == fence {
      TailAnnounces(db, queue, taskId, fence, outcome, seed);
    } else {
      TailIsSilent(db, queue, taskId, fence, outcome, seed);
    }
  }

  lemma WakingNobody(db: Db, queue: string, name: EventName, seed: nat)
    requires (queue, name) in db.events && forall id :: id in db.runs ==> !ParkedOn(db, id, queue, name)
    ensures Wake(db, queue, name, seed) == db
  {
    assert Woken(db, queue, name) == {};
    var after := Wake(db, queue, name, seed);
    assert after.runs == db.runs && after.tasks == db.tasks && after.waits == db.waits;
  }

  lemma NobodyWaitsForTheStored(db: Db, older: set<string>, queue: string, name: EventName, seed: nat)
    requires Inv(db, older) && (queue, name) in db.events
    ensures Wake(db, queue, name, seed) == db
  {
    forall key | key in db.waits && db.waits[key].event == name ensures db.waits[key].queue != queue {
      assert StillAhead(db, db.waits[key]);
    }
    WakingNobody(db, queue, name, seed);
  }

  /** A delivery that ends nothing now: what it ended before has its event, and everyone was told. */
  lemma TailAgain(db: Db, older: set<string>, queue: string, taskId: string, fence: Stamp, outcome: Outcome, seed: nat)
    requires Inv(db, older) && NoneHalfWoken(db, seed)
    requires (taskId in db.tasks && db.tasks[taskId].queue == queue && db.tasks[taskId].stamp == fence)
               ==> (queue, TaskDone(taskId)) in db.events
    ensures Tail(db, queue, taskId, fence, outcome, seed) == db
  {
    TellingIsWaking(db, queue, TaskDone(taskId), By(seed, "task-done"), seed);
    if (queue, TaskDone(taskId)) in db.events {
      NobodyWaitsForTheStored(db, older, queue, TaskDone(taskId), seed);
    }
  }

  /** The rows an ending leaves: its task's, its run's, its event's, and no run half woken. */
  lemma EndTaskLeaves(db: Db, taskId: string, live: string, ended: Task, how: Closing, seed: nat)
    requires Ends(db, taskId, live, ended, how) && NoneHalfWoken(db, seed) && how.stamp != By(seed, "wake-runs")
    ensures var after := EndTask(db, taskId, ended, how, seed);
      && taskId in after.tasks && after.tasks[taskId] == ended && live in after.runs
      && after.runs[live] == Close(db.runs[live], how)
      && (ended.queue, TaskDone(taskId)) in after.events && NoneHalfWoken(after, seed)
  {
  }

  /** An ended task's run is closed, whoever is told of it. */
  lemma EndTaskCloses(db: Db, taskId: string, ended: Task, how: Closing, seed: nat, id: string)
    requires LiveRunOf(db, id, taskId) && !how.state.Live()
    ensures var after := EndTask(db, taskId, ended, how, seed); id in after.runs && after.runs[id] == Close(db.runs[id], how)
  {
  }

  /** At a cap the run is closed, whichever of the two follows. */
  lemma AtCapCloses(db: Db, id: string, passId: string, reason: string, how: Closing, terminal: Stamp, seed: nat)
    requires id in db.runs && Owns(db, db.runs[id]) && db.runs[id].state.Live() && passId !in db.runs && !how.state.Live()
    ensures var after := AtCap(db, id, passId, reason, how, terminal, seed); id in after.runs && after.runs[id] == Close(db.runs[id], how)
  {
    hide EndTask, EntersSaga;
    var task := db.tasks[db.runs[id].taskId];
    EndTaskCloses(db, db.runs[id].taskId, task.(state := Failed, reason := Some(reason), stamp := terminal), how, seed, id);
  }

  /** A run that has ended has no wait, so reaping its waits again takes none. */
  lemma NoWaitToReap(db: Db, older: set<string>, id: string, fence: Stamp)
    requires Inv(db, older) && (id in db.runs ==> db.runs[id].state != Sleeping)
    ensures WaitsGone(db, id, fence) == db.waits
  {
    forall key | key in db.waits ensures key.0 != id {
      assert Sleeper(db.runs[key.0], key.1, db.waits[key]);
    }
  }

  // ------------------------------------------------------------------------------------------
  // `complete`.

  /** The compare-and-set: the run under the caller's claim, whose task admits its completion. */
  function RunCompleted(db: Db, queue: string, id: string, token: string, seed: nat): map<string, Run> {
    if Claimed(db, queue, id, token)
       && (!db.tasks[db.runs[id].taskId].state.Live() || (db.tasks[db.runs[id].taskId].saga.None? && SoleLive(db, id)))
    then db.runs[id := Close(db.runs[id], Closing(Completed, true, true, By(seed, "complete")))] else db.runs
  }

  /** The task of the run under the fence follows it, if it is live. */
  function TaskCompleted(db: Db, queue: string, id: string, result: string, seed: nat): map<string, Task> {
    if Stamped(db, id, By(seed, "complete")) && Owns(db, db.runs[id]) && db.runs[id].queue == queue
       && db.tasks[db.runs[id].taskId].state.Live()
    then
      db.tasks[db.runs[id].taskId := db.tasks[db.runs[id].taskId].(state := Completed, result := Some(result),
                                                                   cancelAt := None, stamp := By(seed, "task"))]
    else db.tasks
  }

  /** `taskId` is what `run-task` read of the run before the batch. */
  function CompleteBatch(db: Db, queue: string, id: string, token: string, result: string, taskId: string, seed: nat): Db {
    var completed := db.(runs := RunCompleted(db, queue, id, token, seed));
    var mirrored := completed.(tasks := TaskCompleted(completed, queue, id, result, seed));
    var reaped := mirrored.(waits := WaitsGone(mirrored, id, By(seed, "complete")));
    Tail(reaped, queue, taskId, By(seed, "task"), Outcome(Completed, Some(result), None), seed)
  }

  lemma OneRunCloses(db: Db, older: set<string>, id: string, how: Closing)
    requires Inv(db, older) && id in db.runs && db.runs[id].state == Running
    ensures var taskId := db.runs[id].taskId;
      && CloseRuns(db, taskId, how).runs == db.runs[id := Close(db.runs[id], how)]
      && CloseRuns(db, taskId, how).waits == (map key | key in db.waits && key.0 != id :: db.waits[key])
  {
    hide Awaited, Manned, Numbered, Settled, Fits;
    var taskId := db.runs[id].taskId;
    forall other | other in db.runs && LiveRunOf(db, other, taskId) ensures other == id {
      OnlyLiveRun(db, id, other);
    }
  }

  /** Up to its tail, an admitted completion ends the task's rows. */
  lemma CompleteEndsRows(db: Db, older: set<string>, queue: string, id: string, token: string, result: string, seed: nat)
    requires Inv(db, older) && CompleteAdmits(db, queue, id, token)
    ensures var completed := db.(runs := RunCompleted(db, queue, id, token, seed));
      var mirrored := completed.(tasks := TaskCompleted(completed, queue, id, result, seed));
      var taskId := db.runs[id].taskId;
      mirrored.(waits := WaitsGone(mirrored, id, By(seed, "complete")))
      == Ended(db, taskId, db.tasks[taskId].(state := Completed, result := Some(result), cancelAt := None,
                                             stamp := By(seed, "task")), Closing(Completed, true, true, By(seed, "complete")))
  {
    OneRunCloses(db, older, id, Closing(Completed, true, true, By(seed, "complete")));
  }

  /** What this batch left, if it was delivered: an ended run, a completed task, and its event. */
  ghost predicate CompletionStands(db: Db, queue: string, id: string, taskId: string, seed: nat) {
    && NoneHalfWoken(db, seed)
    && (id in db.runs ==> db.runs[id].taskId == taskId)
    && (Stamped(db, id, By(seed, "complete")) ==>
          db.runs[id].state == Completed && taskId in db.tasks && db.tasks[taskId].state == Completed)
    && (taskId in db.tasks && db.tasks[taskId].stamp == By(seed, "task") ==> (queue, TaskDone(taskId)) in db.events)
    && (!Untold(db, queue, taskId, seed) ==> taskId in db.tasks && db.tasks[taskId].state == Completed)
  }

  /** A delivery that finds the claim still held. */
  lemma CompleteWins(db: Db, older: set<string>, queue: string, id: string, token: string, result: string,
                     taskId: string, seed: nat)
    requires Inv(db, older) && CompletionStands(db, queue, id, taskId, seed) && CompleteAdmits(db, queue, id, token)
    ensures CompleteBatch(db, queue, id, token, result, taskId, seed) == Complete(db, queue, id, token, result, seed)
  {
    hide Awaited, Manned, Mirrored, Numbered, Settled, RunCompleted, TaskCompleted, WaitsGone, Wake;
    CompleteEndsRows(db, older, queue, id, token, result, seed);
    var ended := db.tasks[taskId].(state := Completed, result := Some(result), cancelAt := None, stamp := By(seed, "task"));
    assert TaskFits(db.tasks[taskId]);
    TailAnnounces(Ended(db, taskId, ended, Closing(Completed, true, true, By(seed, "complete"))), queue, taskId,
                  By(seed, "task"), Outcome(Completed, Some(result), None), seed);
  }

  lemma RefusedCompletesNoRun(db: Db, older: set<string>, queue: string, id: string, token: string, seed: nat)
    requires Inv(db, older) && !CompleteAdmits(db, queue, id, token)
    ensures RunCompleted(db, queue, id, token, seed) == db.runs
  {
    hide Awaited, Manned, Numbered, Settled, SoleLive;
    if Claimed(db, queue, id, token) {
      assert db.tasks[db.runs[id].taskId].state == Running;
    }
  }

  lemma StandingReapsNothing(db: Db, older: set<string>, queue: string, id: string, taskId: string, seed: nat)
    requires Inv(db, older) && id in db.runs && CompletionStands(db, queue, id, taskId, seed)
    ensures WaitsGone(db, id, By(seed, "complete")) == db.waits
  {
    hide Inv, Untold, NoneHalfWoken;
    if Stamped(db, id, By(seed, "complete")) { NoWaitToReap(db, older, id, By(seed, "complete")); }
  }

  /** And one that does not: whatever this batch left stays as it is. */
  lemma CompleteLoses(db: Db, older: set<string>, queue: string, id: string, token: string, result: string,
                      taskId: string, seed: nat)
    requires Inv(db, older) && id in db.runs && CompletionStands(db, queue, id, taskId, seed)
    requires !CompleteAdmits(db, queue, id, token)
    ensures CompleteBatch(db, queue, id, token, result, taskId, seed) == db
  {
    hide Inv, CompleteAdmits, RunCompleted, WaitsGone, Tail;
    RefusedCompletesNoRun(db, older, queue, id, token, seed);
    StandingReapsNothing(db, older, queue, id, taskId, seed);
    TailAgain(db, older, queue, taskId, By(seed, "task"), Outcome(Completed, Some(result), None), seed);
  }

  /**
   * The statements of `complete`, run whenever they arrive, are its one atomic step taken then:
   * on their first delivery, on a second one, and on one that other batches overtook. The
   * result that is stored, and told to whoever waits, is the one the batch was given.
   */
  lemma CompleteDelivers(db: Db, older: set<string>, queue: string, id: string, token: string, result: string,
                         taskId: string, seed: nat)
    requires Inv(db, older) && id in db.runs && CompletionStands(db, queue, id, taskId, seed)
    ensures CompleteBatch(db, queue, id, token, result, taskId, seed) == Complete(db, queue, id, token, result, seed)
    ensures ProtocolEffects.CompleteDoes(db, queue, id, token, result, CompleteBatch(db, queue, id, token, result, taskId, seed))
  {
    hide Inv, CompletionStands, CompleteBatch, ProtocolEffects.CompleteDoes;
    ProtocolExact.CompleteIs(db, older, queue, id, token, result, seed);
    if CompleteAdmits(db, queue, id, token) {
      CompleteWins(db, older, queue, id, token, result, taskId, seed);
    } else {
      CompleteLoses(db, older, queue, id, token, result, taskId, seed);
    }
  }

  lemma CompleteLeaves(db: Db, older: set<string>, queue: string, id: string, token: string, result: string,
                       taskId: string, seed: nat)
    requires Inv(db, older) && id in db.runs && CompletionStands(db, queue, id, taskId, seed)
    ensures CompletionStands(Complete(db, queue, id, token, result, seed), queue, id, taskId, seed)
  {
    if CompleteAdmits(db, queue, id, token) {
      LiveRunIsTop(db, id);
      EndTaskLeaves(db, taskId, id, db.tasks[taskId].(state := Completed, result := Some(result), cancelAt := None,
                                                      stamp := By(seed, "task")),
                    Closing(Completed, true, true, By(seed, "complete")), seed);
    }
  }

  /** And other batches leave it standing. */
  lemma CompletionStandsOn(db: Db, after: Db, queue: string, id: string, taskId: string, seed: nat)
    requires id in db.runs && CompletionStands(db, queue, id, taskId, seed) && Follows(db, after, seed)
    ensures CompletionStands(after, queue, id, taskId, seed)
  {
  }

  lemma CompleteAgain(first: Db, older: set<string>, queue: string, id: string, token: string, result: string,
                      taskId: string, seed: nat)
    requires Inv(first, older) && Unspent(first, seed) && id in first.runs && taskId == first.runs[id].taskId
    ensures var db := Complete(first, queue, id, token, result, seed);
      CompleteBatch(db, queue, id, token, result, taskId, seed) == db
  {
    CompleteKeeps(first, older, queue, id, token, result, seed);
    CompleteLeaves(first, older, queue, id, token, result, taskId, seed);
    CompleteDelivers(Complete(first, queue, id, token, result, seed), older, queue, id, token, result, taskId, seed);
  }
}
