/** Batches that start a run: the next attempt of a live task, a revival, a spawn, a claim, an await. */
module ProtocolStarts {
  import opened Options
  import opened Tables
  import opened Protocol
  import opened ProtocolInvariant

  /** The task lives on in a new run, the next of its ordinals. */
  function Start(db: Db, taskId: string, next: Task, id: string, run: Run): Db {
    db.(tasks := db.tasks[taskId := next], runs := db.runs[id := run])
  }

  /** What a batch may write to start run `id` of a task whose top run is `top` and whose live run has closed. */
  ghost predicate Starts(db: Db, taskId: string, top: string, next: Task, id: string, run: Run) {
    && taskId in db.tasks && TopRun(db, taskId, top) && id !in db.runs
    && next.queue == db.tasks[taskId].queue && TaskFits(next) && next.state == run.state
    && run.taskId == taskId && run.queue == next.queue && RunFits(run) && (run.state == Pending || run.state == Sleeping)
    && run.availableAt.Some? && run.attempt == db.runs[top].attempt + 1 && Accounted(run, next)
    && run.wakeEvent == db.runs[top].wakeEvent && run.eventPayload == db.runs[top].eventPayload
  }

  lemma StartKeepsFit(db: Db, taskId: string, top: string, next: Task, id: string, run: Run)
    requires Fits(db) && Starts(db, taskId, top, next, id, run)
    ensures Fits(Start(db, taskId, next, id, run))
  {
  }

  lemma StartKeepsMirrored(db: Db, taskId: string, top: string, next: Task, id: string, run: Run)
    requires Fits(db) && Mirrored(db) && Starts(db, taskId, top, next, id, run) && !db.tasks[taskId].state.Live()
    ensures Mirrored(Start(db, taskId, next, id, run))
  {
    var after := Start(db, taskId, next, id, run);
    forall one, other
      ensures LiveRunOf(after, one, other)
        == ((LiveRunOf(db, one, other) && other != taskId) || (one == id && other == taskId))
    {
    }
  }

  lemma StartKeepsManned(db: Db, taskId: string, top: string, next: Task, id: string, run: Run)
    requires Manned(db) && Starts(db, taskId, top, next, id, run)
    ensures Manned(Start(db, taskId, next, id, run))
  {
    var after := Start(db, taskId, next, id, run);
    forall other | other in after.tasks && after.tasks[other].state.Live()
      ensures exists one :: LiveRunOf(after, one, other)
    {
      if other == taskId {
        assert LiveRunOf(after, id, taskId);
      } else {
        var one :| LiveRunOf(db, one, other);
        assert LiveRunOf(after, one, other);
      }
    }
  }

  lemma StartKeepsNumbers(db: Db, taskId: string, top: string, next: Task, id: string, run: Run)
    requires Fits(db) && Mirrored(db) && Numbered(db) && Starts(db, taskId, top, next, id, run)
    requires !db.tasks[taskId].state.Live()
    ensures Numbered(Start(db, taskId, next, id, run))
  {
  }

  lemma StartKeepsSettled(db: Db, taskId: string, top: string, next: Task, id: string, run: Run)
    requires Settled(db) && Starts(db, taskId, top, next, id, run)
    ensures Settled(Start(db, taskId, next, id, run))
  {
    var after := Start(db, taskId, next, id, run);
    forall other | other in after.tasks && !after.tasks[other].state.Live()
      ensures exists one :: TopRun(after, other, one) && Charged(after.runs[one], after.tasks[other])
    {
      var one :| TopRun(db, other, one) && Charged(db.runs[one], db.tasks[other]);
      assert TopRun(after, other, one);
    }
  }

  /** A settled task that starts a run again is sound again. */
  lemma StartIsSound(db: Db, taskId: string, top: string, next: Task, id: string, run: Run)
    requires Sound(db) && Starts(db, taskId, top, next, id, run) && !db.tasks[taskId].state.Live()
    ensures Sound(Start(db, taskId, next, id, run))
  {
    StartKeepsFit(db, taskId, top, next, id, run);
    StartKeepsMirrored(db, taskId, top, next, id, run);
    StartKeepsManned(db, taskId, top, next, id, run);
    StartKeepsNumbers(db, taskId, top, next, id, run);
    StartKeepsSettled(db, taskId, top, next, id, run);
  }

  lemma StartAwaits(db: Db, older: set<string>, taskId: string, top: string, next: Task, id: string, run: Run)
    requires Fits(db) && Awaited(db, older, {}) && Starts(db, taskId, top, next, id, run)
    ensures Awaited(Start(db, taskId, next, id, run), older - {taskId}, {})
  {
  }

  // ------------------------------------------------------------------------------------------
  // The next attempt, in place of the live run.

  /** A live task as it would stand had the batch ended it: what its next attempt starts from. */
  function Paused(task: Task): Task {
    task.(state := Failed, result := None, reason := Some(""))
  }

  lemma SucceedIsStart(db: Db, taskId: string, live: string, next: Task, how: Closing, id: string, run: Run)
    requires LiveRunOf(db, live, taskId) && Starts(db, taskId, live, next, id, run) && !how.state.Live() && !how.clearsWake
    ensures var closed := Ended(db, taskId, Paused(db.tasks[taskId]), how);
      Start(closed, taskId, next, id, run) == Succeed(db, taskId, next, how, id, run)
      && Starts(closed, taskId, live, next, id, run)
  {
    var closed := Ended(db, taskId, Paused(db.tasks[taskId]), how);
    assert TopRun(closed, taskId, live);
  }

  lemma PauseEnds(db: Db, taskId: string, live: string, how: Closing)
    requires Sound(db) && LiveRunOf(db, live, taskId) && how.state == Failed
    ensures Ends(db, taskId, live, Paused(db.tasks[taskId]), how)
  {
    assert Accounted(db.runs[live], db.tasks[taskId]);
  }

  lemma SucceedIsSound(db: Db, taskId: string, live: string, next: Task, how: Closing, id: string, run: Run)
    requires Sound(db) && LiveRunOf(db, live, taskId) && how.state == Failed && !how.clearsWake
    requires Starts(db, taskId, live, next, id, run)
    ensures Sound(Succeed(db, taskId, next, how, id, run))
  {
    PauseEnds(db, taskId, live, how);
    EndIsSound(db, taskId, live, Paused(db.tasks[taskId]), how);
    SucceedIsStart(db, taskId, live, next, how, id, run);
    StartIsSound(Ended(db, taskId, Paused(db.tasks[taskId]), how), taskId, live, next, id, run);
  }

  lemma SucceedAnswersWaits(db: Db, taskId: string, live: string, next: Task, how: Closing, id: string, run: Run)
    requires Fits(db) && Wakeable(db, {}) && LiveRunOf(db, live, taskId) && Starts(db, taskId, live, next, id, run)
    ensures Wakeable(Succeed(db, taskId, next, how, id, run), {})
  {
  }

  lemma SucceedStrandsNobody(db: Db, taskId: string, live: string, next: Task, how: Closing, id: string, run: Run)
    requires Fits(db) && NobodyStranded(db) && LiveRunOf(db, live, taskId) && !how.state.Live()
    requires Starts(db, taskId, live, next, id, run)
    ensures NobodyStranded(Succeed(db, taskId, next, how, id, run))
  {
  }

  lemma SucceedAnnounces(db: Db, older: set<string>, taskId: string, live: string, next: Task, how: Closing,
                         id: string, run: Run)
    requires Announced(db, older) && LiveRunOf(db, live, taskId) && Starts(db, taskId, live, next, id, run) && Fits(db)
    ensures Announced(Succeed(db, taskId, next, how, id, run), older)
  {
  }

  lemma SucceedCarries(db: Db, taskId: string, live: string, next: Task, how: Closing, id: string, run: Run)
    requires Carried(db) && LiveRunOf(db, live, taskId) && Starts(db, taskId, live, next, id, run) && Fits(db)
    ensures Carried(Succeed(db, taskId, next, how, id, run))
  {
  }

  lemma SucceedKeeps(db: Db, older: set<string>, taskId: string, live: string, next: Task, how: Closing,
                     id: string, run: Run)
    requires Inv(db, older) && LiveRunOf(db, live, taskId) && how.state == Failed && !how.clearsWake
    requires Starts(db, taskId, live, next, id, run)
    ensures Inv(Succeed(db, taskId, next, how, id, run), older)
  {
    SucceedIsSound(db, taskId, live, next, how, id, run);
    SucceedAnswersWaits(db, taskId, live, next, how, id, run);
    SucceedStrandsNobody(db, taskId, live, next, how, id, run);
    SucceedAnnounces(db, older, taskId, live, next, how, id, run);
    SucceedCarries(db, taskId, live, next, how, id, run);
  }

  // ------------------------------------------------------------------------------------------
  // A spawn.

  ghost predicate Fresh(db: Db, taskId: string, task: Task, id: string, run: Run) {
    && taskId !in db.tasks && id !in db.runs
    && TaskFits(task) && task.state == Pending && task.attempts == 0 && task.infraRetries == 0 && task.maxAttempts > 0
    && RunFits(run) && run.state == Pending && run.taskId == taskId && run.queue == task.queue && run.attempt == 1
    && run.availableAt.Some? && run.eventPayload.None?
  }

  lemma SpawnKeepsFit(db: Db, taskId: string, task: Task, id: string, run: Run)
    requires Fits(db) && Fresh(db, taskId, task, id, run)
    ensures Fits(Start(db, taskId, task, id, run))
  {
  }

  lemma SpawnKeepsMirrored(db: Db, taskId: string, task: Task, id: string, run: Run)
    requires Fits(db) && Mirrored(db) && Fresh(db, taskId, task, id, run)
    ensures Mirrored(Start(db, taskId, task, id, run))
  {
    var after := Start(db, taskId, task, id, run);
    forall one, other
      ensures LiveRunOf(after, one, other) == (LiveRunOf(db, one, other) || (one == id && other == taskId))
    {
    }
  }

  lemma SpawnKeepsManned(db: Db, taskId: string, task: Task, id: string, run: Run)
    requires Manned(db) && Fresh(db, taskId, task, id, run)
    ensures Manned(Start(db, taskId, task, id, run))
  {
    var after := Start(db, taskId, task, id, run);
    forall other | other in after.tasks && after.tasks[other].state.Live()
      ensures exists one :: LiveRunOf(after, one, other)
    {
      if other == taskId {
        assert LiveRunOf(after, id, taskId);
      } else {
        var one :| LiveRunOf(db, one, other);
        assert LiveRunOf(after, one, other);
      }
    }
  }

  lemma SpawnKeepsCounts(db: Db, taskId: string, task: Task, id: string, run: Run)
    requires Fits(db) && Numbered(db) && Settled(db) && Fresh(db, taskId, task, id, run)
    ensures Numbered(Start(db, taskId, task, id, run)) && Settled(Start(db, taskId, task, id, run))
  {
    var after := Start(db, taskId, task, id, run);
    forall other | other in after.tasks && !after.tasks[other].state.Live()
      ensures exists one :: TopRun(after, other, one) && Charged(after.runs[one], after.tasks[other])
    {
      var one :| TopRun(db, other, one) && Charged(db.runs[one], db.tasks[other]);
      assert TopRun(after, other, one);
    }
  }

  lemma SpawnAwaits(db: Db, older: set<string>, taskId: string, task: Task, id: string, run: Run)
    requires Awaited(db, older, {}) && Fresh(db, taskId, task, id, run)
    ensures Awaited(Start(db, taskId, task, id, run), older, {})
  {
  }

  lemma SpawnKeeps(db: Db, older: set<string>, taskId: string, task: Task, id: string, run: Run)
    requires Inv(db, older) && Fresh(db, taskId, task, id, run)
    ensures Inv(Start(db, taskId, task, id, run), older)
  {
    SpawnKeepsFit(db, taskId, task, id, run);
    SpawnKeepsMirrored(db, taskId, task, id, run);
    SpawnKeepsManned(db, taskId, task, id, run);
    SpawnKeepsCounts(db, taskId, task, id, run);
    SpawnAwaits(db, older, taskId, task, id, run);
  }

  // ------------------------------------------------------------------------------------------
  // A claim, of however many runs.

  lemma ClaimMirrors(db: Db, queue: string, token: string, leaseMs: nat, limit: nat, picked: set<string>, seed: nat,
                     id: string)
    requires Fits(db) && Mirrored(db) && ClaimAdmits(db, queue, token, leaseMs, limit, picked)
    requires id in db.runs && db.runs[id].state.Live()
    ensures var after := Claim(db, queue, token, leaseMs, limit, picked, seed);
      after.tasks[db.runs[id].taskId].state == after.runs[id].state
  {
    forall other | other in picked && db.runs[other].taskId == db.runs[id].taskId ensures other == id {
      OnlyLiveRun(db, other, id);
    }
  }

  lemma ClaimKeepsRun(db: Db, queue: string, token: string, leaseMs: nat, limit: nat, picked: set<string>, seed: nat,
                      id: string)
    requires Fits(db) && ClaimAdmits(db, queue, token, leaseMs, limit, picked) && id in db.runs
    ensures SameRun(db.runs[id], Claim(db, queue, token, leaseMs, limit, picked, seed).runs[id])
  {
    assert id in picked ==> Claimable(db, queue, id);
  }

  lemma ClaimKeepsTask(db: Db, queue: string, token: string, leaseMs: nat, limit: nat, picked: set<string>, seed: nat,
                       taskId: string)
    requires Fits(db) && Mirrored(db) && ClaimAdmits(db, queue, token, leaseMs, limit, picked) && taskId in db.tasks
    ensures SameBooks(db.tasks[taskId], Claim(db, queue, token, leaseMs, limit, picked, seed).tasks[taskId])
  {
  }

  lemma ClaimReshapes(db: Db, queue: string, token: string, leaseMs: nat, limit: nat, picked: set<string>, seed: nat)
    requires Fits(db) && Mirrored(db) && ClaimAdmits(db, queue, token, leaseMs, limit, picked)
    ensures Reshaped(db, Claim(db, queue, token, leaseMs, limit, picked, seed))
  {
    var after := Claim(db, queue, token, leaseMs, limit, picked, seed);
    assert after.runs.Keys == db.runs.Keys && after.tasks.Keys == db.tasks.Keys;
    forall id | id in db.runs ensures SameRun(db.runs[id], after.runs[id]) {
      ClaimKeepsRun(db, queue, token, leaseMs, limit, picked, seed, id);
    }
    forall taskId | taskId in db.tasks ensures SameBooks(db.tasks[taskId], after.tasks[taskId]) {
      ClaimKeepsTask(db, queue, token, leaseMs, limit, picked, seed, taskId);
    }
    forall id | id in after.runs && after.runs[id].state.Live()
      ensures after.runs[id].taskId in after.tasks && after.tasks[after.runs[id].taskId].state == after.runs[id].state
    {
      ClaimKeepsRun(db, queue, token, leaseMs, limit, picked, seed, id);
      ClaimMirrors(db, queue, token, leaseMs, limit, picked, seed, id);
    }
  }

  /** The claim that finds a wait due takes it with the run, so a claimed run has no wait. */
  lemma ClaimAnswersWaits(db: Db, queue: string, token: string, leaseMs: nat, limit: nat, picked: set<string>, seed: nat)
    requires Fits(db) && Wakeable(db, {}) && ClaimAdmits(db, queue, token, leaseMs, limit, picked)
    ensures Wakeable(Claim(db, queue, token, leaseMs, limit, picked, seed), {})
  {
    var after := Claim(db, queue, token, leaseMs, limit, picked, seed);
    forall key | key in after.waits
      ensures key.0 in after.runs && Sleeper(after.runs[key.0], key.1, after.waits[key])
      ensures StillAhead(after, after.waits[key])
    {
      assert Sleeper(db.runs[key.0], key.1, db.waits[key]);
      if key.0 in picked {
        assert Claimable(db, queue, key.0);
      }
    }
  }

  lemma ClaimStrandsNobody(db: Db, queue: string, token: string, leaseMs: nat, limit: nat, picked: set<string>, seed: nat)
    requires NobodyStranded(db) && ClaimAdmits(db, queue, token, leaseMs, limit, picked)
    ensures NobodyStranded(Claim(db, queue, token, leaseMs, limit, picked, seed))
  {
  }

  /** A batch that ends nothing and stores nothing owes no announcement. */
  lemma ReshapeKeepsAnnounced(db: Db, after: Db, older: set<string>)
    requires Announced(db, older) && Reshaped(db, after) && after.events == db.events
    ensures Announced(after, older)
  {
  }

  lemma ClaimCarries(db: Db, queue: string, token: string, leaseMs: nat, limit: nat, picked: set<string>, seed: nat)
    requires Carried(db) && ClaimAdmits(db, queue, token, leaseMs, limit, picked)
    ensures Carried(Claim(db, queue, token, leaseMs, limit, picked, seed))
  {
    hide Current;
  }

  lemma ClaimStoresNothing(db: Db, queue: string, token: string, leaseMs: nat, limit: nat, picked: set<string>, seed: nat)
    ensures Claim(db, queue, token, leaseMs, limit, picked, seed).events == db.events
  {
    hide ClaimAdmits;
  }

  lemma ClaimHandsOver(db: Db, older: set<string>, queue: string, token: string, leaseMs: nat, limit: nat,
                       picked: set<string>, seed: nat)
    requires Announced(db, older) && Carried(db) && ClaimAdmits(db, queue, token, leaseMs, limit, picked)
    requires Fits(db) && Mirrored(db)
    ensures Announced(Claim(db, queue, token, leaseMs, limit, picked, seed), older)
    ensures Carried(Claim(db, queue, token, leaseMs, limit, picked, seed))
  {
    hide Announced, Carried, Fits, Mirrored, ClaimAdmits, Claim, Reshaped;
    ClaimReshapes(db, queue, token, leaseMs, limit, picked, seed);
    ClaimStoresNothing(db, queue, token, leaseMs, limit, picked, seed);
    ReshapeKeepsAnnounced(db, Claim(db, queue, token, leaseMs, limit, picked, seed), older);
    ClaimCarries(db, queue, token, leaseMs, limit, picked, seed);
  }

  lemma ClaimKeeps(db: Db, older: set<string>, queue: string, token: string, leaseMs: nat, limit: nat,
                   picked: set<string>, seed: nat)
    requires Inv(db, older)
    ensures Inv(Claim(db, queue, token, leaseMs, limit, picked, seed), older)
  {
    if ClaimAdmits(db, queue, token, leaseMs, limit, picked) {
      ClaimReshapes(db, queue, token, leaseMs, limit, picked, seed);
      ReshapeKeeps(db, Claim(db, queue, token, leaseMs, limit, picked, seed));
      ClaimAnswersWaits(db, queue, token, leaseMs, limit, picked, seed);
      ClaimStrandsNobody(db, queue, token, leaseMs, limit, picked, seed);
      ClaimHandsOver(db, older, queue, token, leaseMs, limit, picked, seed);
    }
  }
}
