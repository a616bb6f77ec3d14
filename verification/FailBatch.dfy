/** `fail` and `fail-rollback`, statement by statement: the retry, the rollback pass, or the end. */
module FailBatch {
  import opened Options
  import opened Tables
  import opened Protocol
  import opened ProtocolInvariant
  import opened ProtocolSteps
  import opened Statements
  import opened Batches
  import opened ProtocolFollows
  import opened SagaPass

  /** The failed run is this batch's, and its task is still live. */
  predicate FailedByThis(db: Db, f: Failure, seed: nat) {
    FailedUnder(db, f.runId, By(seed, "fail"))
  }

  function RunFailed(db: Db, f: Failure, seed: nat): map<string, Run> {
    if Claimed(db, f.queue, f.runId, f.token)
       && (f.rollback ==> db.tasks[db.runs[f.runId].taskId].saga.Some?)
       && (!db.tasks[db.runs[f.runId].taskId].state.Live() || Current(db, f.runId))
    then db.runs[f.runId := Close(db.runs[f.runId], FailClosing(seed))] else db.runs
  }

  /** `successor`, of a retry the user budget admits. */
  function SuccessorInserted(db: Db, f: Failure, seed: nat): map<string, Run> {
    if !f.rollback && f.retryMs.Some? && FailedByThis(db, f, seed)
       && UserAttempts(db.runs[f.runId], db.tasks[db.runs[f.runId].taskId]) < db.tasks[db.runs[f.runId].taskId].maxAttempts
       && !SuccessorOwned(db, f.nextId, db.runs[f.runId])
    then db.runs[f.nextId := Successor(db.runs[f.runId], AtOnce(FailDelay(f)), db.now + FailDelay(f), By(seed, "successor"))]
    else db.runs
  }

  /** `task-retrying`. */
  function TaskRetrying(db: Db, f: Failure, seed: nat): map<string, Task> {
    if !f.rollback && f.retryMs.Some? && Stamped(db, f.nextId, By(seed, "successor")) && f.runId in db.runs
       && db.runs[f.nextId].taskId in db.tasks && db.tasks[db.runs[f.nextId].taskId].state.Live()
    then
      var task := db.tasks[db.runs[f.nextId].taskId];
      db.tasks[db.runs[f.nextId].taskId := task.(attempts := UserAttempts(db.runs[f.runId], task),
                                                 state := db.runs[f.nextId].state, stamp := By(seed, "task-retrying"))]
    else db.tasks
  }

  function TerminalStamp(f: Failure, seed: nat): Stamp {
    By(seed, if f.retryMs.Some? && !f.rollback then "task-terminal" else "task")
  }

  /** `task-terminal`, or `task` where no retry was asked: the end, unless this batch placed a run. */
  function TaskFailed(db: Db, f: Failure, seed: nat): map<string, Task> {
    if FailedByThis(db, f, seed) && !SuccessorOwned(db, f.nextId, db.runs[f.runId])
    then
      var task := db.tasks[db.runs[f.runId].taskId];
      db.tasks[db.runs[f.runId].taskId := task.(attempts := UserAttempts(db.runs[f.runId], task), state := Failed,
                                                reason := Some(f.reason), stamp := TerminalStamp(f, seed))]
    else db.tasks
  }

  /** The retry arm. */
  function RetryArm(db: Db, f: Failure, seed: nat): Db {
    var placed := db.(runs := SuccessorInserted(db, f, seed));
    placed.(tasks := TaskRetrying(placed, f, seed))
  }

  /** Everything before the tail. `taskId` is what `run-task` read of the run before the batch. */
  function FailRows(db: Db, f: Failure, seed: nat): Db {
    var failed := db.(runs := RunFailed(db, f, seed));
    var retried := RetryArm(SagaArm(failed, f, By(seed, "fail"), seed), f, seed);
    var ended := retried.(tasks := TaskFailed(retried, f, seed));
    ended.(waits := WaitsGone(ended, f.runId, By(seed, "fail")))
  }

  function FailStatements(db: Db, f: Failure, taskId: string, seed: nat): Db {
    Tail(FailRows(db, f, seed), f.queue, taskId, TerminalStamp(f, seed), Outcome(Failed, None, Some(f.reason)), seed)
  }

  // ------------------------------------------------------------------------------------------
  // The first delivery.

  ghost predicate JustFailed(db: Db, failed: Db, f: Failure, seed: nat) {
    JustClosed(db, failed, f, FailClosing(seed))
  }

  lemma FailCasWins(db: Db, f: Failure, seed: nat)
    requires FailAdmits(db, f)
    ensures JustFailed(db, db.(runs := RunFailed(db, f, seed)), f, seed)
  {
  }

  lemma RetryArmPlaces(db: Db, failed: Db, f: Failure, seed: nat)
    requires JustFailed(db, failed, f, seed) && !f.rollback && f.retryMs.Some?
    requires UserAttempts(db.runs[f.runId], db.tasks[db.runs[f.runId].taskId]) < db.tasks[db.runs[f.runId].taskId].maxAttempts
    ensures var run := db.runs[f.runId]; var task := db.tasks[run.taskId];
      RetryArm(failed, f, seed)
      == failed.(runs := failed.runs[f.nextId := Successor(run, AtOnce(FailDelay(f)), db.now + FailDelay(f), By(seed, "successor"))],
                 tasks := db.tasks[run.taskId := task.(attempts := UserAttempts(run, task), state := AtOnce(FailDelay(f)),
                                                       stamp := By(seed, "task-retrying"))])
  {
  }

  /** A run this batch placed holds the identity its retry and its ending ask for. */
  lemma PlacedRunYields(db: Db, f: Failure, seed: nat)
    requires f.runId in db.runs && SuccessorOwned(db, f.nextId, db.runs[f.runId])
    ensures TaskFailed(db, f, seed) == db.tasks && SuccessorInserted(db, f, seed) == db.runs
  {
  }

  /** The failed run is all that closing its task's runs closes. */
  ghost predicate ClosesOne(db: Db, failed: Db, f: Failure, seed: nat)
    requires f.runId in db.runs
  {
    var closed := CloseRuns(db, db.runs[f.runId].taskId, FailClosing(seed));
    failed == db.(runs := RunFailed(db, f, seed)) && closed.runs == failed.runs
    && closed.waits == (map key | key in db.waits && key.0 != f.runId :: db.waits[key])
  }

  lemma FailClosesOne(db: Db, older: set<string>, f: Failure, seed: nat)
    requires Inv(db, older) && FailAdmits(db, f)
    ensures ClosesOne(db, db.(runs := RunFailed(db, f, seed)), f, seed)
  {
    OneRunCloses(db, older, f.runId, FailClosing(seed));
  }

  lemma FailRowsRetry(db: Db, failed: Db, f: Failure, seed: nat)
    requires JustFailed(db, failed, f, seed) && ClosesOne(db, failed, f, seed) && !f.rollback && f.retryMs.Some?
    requires UserAttempts(db.runs[f.runId], db.tasks[db.runs[f.runId].taskId]) < db.tasks[db.runs[f.runId].taskId].maxAttempts
    ensures FailRows(db, f, seed) == FailRetries(db, f, seed)
  {
    NoSagaArm(db, failed, f, FailClosing(seed), seed);
    RetryArmPlaces(db, failed, f, seed);
    PlacedRunYields(RetryArm(failed, f, seed), f, seed);
  }

  lemma RetryArmYields(db: Db, failed: Db, f: Failure, seed: nat)
    requires JustFailed(db, failed, f, seed) && PassAdmits(db.tasks[db.runs[f.runId].taskId], db.runs[f.runId], f)
    ensures RetryArm(SagaArm(failed, f, By(seed, "fail"), seed), f, seed) == SagaArm(failed, f, By(seed, "fail"), seed)
    ensures TaskFailed(SagaArm(failed, f, By(seed, "fail"), seed), f, seed) == SagaArm(failed, f, By(seed, "fail"), seed).tasks
  {
    SagaArmPlaces(db, failed, f, FailClosing(seed), seed);
    PlacedRunYields(SagaArm(failed, f, By(seed, "fail"), seed), f, seed);
  }

  lemma FailRowsRollBack(db: Db, failed: Db, f: Failure, seed: nat)
    requires JustFailed(db, failed, f, seed) && ClosesOne(db, failed, f, seed)
    requires PassAdmits(db.tasks[db.runs[f.runId].taskId], db.runs[f.runId], f)
    ensures FailRows(db, f, seed) == FailRollsBack(db, f, !f.rollback, seed)
  {
    RetryArmYields(db, failed, f, seed);
    SagaArmPlaces(db, failed, f, FailClosing(seed), seed);
  }

  lemma FailRowsEnd(db: Db, failed: Db, f: Failure, seed: nat)
    requires JustFailed(db, failed, f, seed) && ClosesOne(db, failed, f, seed)
    requires AfterFailure(db.tasks[db.runs[f.runId].taskId], db.runs[f.runId], f).EndsTask?
    ensures var run := db.runs[f.runId]; var task := db.tasks[run.taskId];
      FailRows(db, f, seed)
      == Ended(db, run.taskId, task.(attempts := UserAttempts(run, task), state := Failed, reason := Some(f.reason),
                                     stamp := TerminalStamp(f, seed)), FailClosing(seed))
  {
    NoSagaArm(db, failed, f, FailClosing(seed), seed);
    assert RetryArm(failed, f, seed) == failed;
  }

  /** A delivery that wins nothing and finds nothing of its own leaves every row. */
  lemma NothingOfThis(db: Db, f: Failure, seed: nat)
    requires RunFailed(db, f, seed) == db.runs && !Stamped(db, f.runId, By(seed, "fail"))
    requires !Stamped(db, f.nextId, By(seed, "rollback-pass")) && !Stamped(db, f.nextId, By(seed, "successor"))
    ensures FailRows(db, f, seed) == db
  {
    assert SagaArm(db, f, By(seed, "fail"), seed) == db;
    assert RetryArm(db, f, seed) == db;
  }

  lemma FailAdmitsWinner(db: Db, older: set<string>, f: Failure, seed: nat)
    requires Inv(db, older) && !FailAdmits(db, f) && f.nextId !in db.runs
    ensures RunFailed(db, f, seed) == db.runs
  {
    if Claimed(db, f.queue, f.runId, f.token) {
      assert db.tasks[db.runs[f.runId].taskId].state == Running;
    }
  }

  /** A delivery that finds the claim still held. */
  lemma FailWins(db: Db, older: set<string>, f: Failure, taskId: string, seed: nat)
    requires Inv(db, older) && NoneHalfWoken(db, seed) && Untold(db, f.queue, taskId, seed) && FailAdmits(db, f)
    requires taskId == db.runs[f.runId].taskId
    ensures FailStatements(db, f, taskId, seed) == Fail(db, f, seed)
  {
    var failed := db.(runs := RunFailed(db, f, seed));
    FailCasWins(db, f, seed);
    FailClosesOne(db, older, f, seed);
    match AfterFailure(db.tasks[taskId], db.runs[f.runId], f)
    case Retries =>
      FailRowsRetry(db, failed, f, seed);
      RetryIsSilent(db, f, taskId, seed);
    case RollsBack(enters) =>
      FailRowsRollBack(db, failed, f, seed);
      RollBackIsSilent(db, f, enters, taskId, seed);
    case EndsTask =>
      FailRowsEnd(db, failed, f, seed);
      EndIsAnnounced(db, f, taskId, seed);
  }

  lemma RetryIsSilent(db: Db, f: Failure, taskId: string, seed: nat)
    requires NoneHalfWoken(db, seed) && Untold(db, f.queue, taskId, seed)
    requires f.runId in db.runs && taskId == db.runs[f.runId].taskId && Owns(db, db.runs[f.runId])
    ensures Tail(FailRetries(db, f, seed), f.queue, taskId, TerminalStamp(f, seed), Outcome(Failed, None, Some(f.reason)), seed)
         == FailRetries(db, f, seed)
  {
    TailIsSilent(FailRetries(db, f, seed), f.queue, taskId, TerminalStamp(f, seed), Outcome(Failed, None, Some(f.reason)), seed);
  }

  lemma RollBackIsSilent(db: Db, f: Failure, enters: bool, taskId: string, seed: nat)
    requires NoneHalfWoken(db, seed) && Untold(db, f.queue, taskId, seed)
    requires f.runId in db.runs && taskId == db.runs[f.runId].taskId && Owns(db, db.runs[f.runId])
    ensures var after := FailRollsBack(db, f, enters, seed);
      Tail(after, f.queue, taskId, TerminalStamp(f, seed), Outcome(Failed, None, Some(f.reason)), seed) == after
  {
    TailIsSilent(FailRollsBack(db, f, enters, seed), f.queue, taskId, TerminalStamp(f, seed),
                 Outcome(Failed, None, Some(f.reason)), seed);
  }

  lemma EndIsAnnounced(db: Db, f: Failure, taskId: string, seed: nat)
    requires NoneHalfWoken(db, seed) && Untold(db, f.queue, taskId, seed)
    requires f.runId in db.runs && taskId == db.runs[f.runId].taskId && Owns(db, db.runs[f.runId])
    requires db.runs[f.runId].queue == f.queue && TaskFits(db.tasks[taskId]) && db.tasks[taskId].state.Live()
    ensures var run := db.runs[f.runId]; var task := db.tasks[taskId];
      Tail(Ended(db, taskId, task.(attempts := UserAttempts(run, task), state := Failed, reason := Some(f.reason),
                                   stamp := TerminalStamp(f, seed)), FailClosing(seed)),
           f.queue, taskId, TerminalStamp(f, seed), Outcome(Failed, None, Some(f.reason)), seed)
      == FailEnds(db, f, seed)
  {
    var run := db.runs[f.runId];
    var task := db.tasks[taskId];
    var ended := task.(attempts := UserAttempts(run, task), state := Failed, reason := Some(f.reason),
                       stamp := TerminalStamp(f, seed));
    TailAnnounces(Ended(db, taskId, ended, FailClosing(seed)), f.queue, taskId, TerminalStamp(f, seed), OutcomeOf(ended), seed);
  }

  // ------------------------------------------------------------------------------------------
  // Any later delivery of the same statements.

  /** The next run this batch placed, and while that run bears its stamp, the task as this batch left it. */
  ghost predicate PlacedStands(db: Db, f: Failure, seed: nat)
    requires f.runId in db.runs
  {
    && SuccessorOwned(db, f.nextId, db.runs[f.runId]) && db.runs[f.runId].taskId in db.tasks
    && (Stamped(db, f.nextId, By(seed, "successor")) ==>
          var task := db.tasks[db.runs[f.runId].taskId];
          && db.runs[f.nextId].state.Live() && task.state == db.runs[f.nextId].state
          && task.attempts == UserAttempts(db.runs[f.runId], task) && task.stamp == By(seed, "task-retrying"))
    && (PassOfThis(db, f, seed) ==> db.runs[f.nextId].state.Live() && PassStands(db, f, seed))
  }

  /** The batch's first delivery ended the task, and placed no run. */
  ghost predicate EndedByThis(db: Db, f: Failure, taskId: string, seed: nat) {
    && Stamped(db, f.runId, By(seed, "fail")) && f.nextId !in db.runs
    && taskId in db.tasks && (f.queue, TaskDone(taskId)) in db.events
  }

  /** What this batch left, if it was delivered: a failed run, and its successor or its task's event. */
  ghost predicate FailureStands(db: Db, f: Failure, taskId: string, seed: nat) {
    && NoneHalfWoken(db, seed)
    && (f.runId in db.runs ==> db.runs[f.runId].taskId == taskId)
    && (Stamped(db, f.runId, By(seed, "fail")) ==>
          && db.runs[f.runId].state == Failed
          && (EndedByThis(db, f, taskId, seed) || PlacedStands(db, f, seed)))
    && (f.nextId in db.runs || !Untold(db, f.queue, taskId, seed) ==> Stamped(db, f.runId, By(seed, "fail")))
    && (taskId in db.tasks && db.tasks[taskId].stamp == TerminalStamp(f, seed) ==> (f.queue, TaskDone(taskId)) in db.events)
  }

  /** The task this batch ended was brought back since. */
  ghost predicate BroughtBack(db: Db, f: Failure, taskId: string, seed: nat) {
    EndedByThis(db, f, taskId, seed) && db.tasks[taskId].state.Live()
  }

  lemma EndedRowsStay(db: Db, older: set<string>, f: Failure, taskId: string, seed: nat)
    requires Inv(db, older) && FailureStands(db, f, taskId, seed) && EndedByThis(db, f, taskId, seed)
    requires !db.tasks[taskId].state.Live()
    ensures FailRows(db, f, seed) == db
  {
    NoWaitToReap(db, older, f.runId, By(seed, "fail"));
    assert SagaArm(db, f, By(seed, "fail"), seed) == db;
    assert RetryArm(db, f, seed) == db;
  }

  lemma PlacedRowsStay(db: Db, older: set<string>, f: Failure, seed: nat)
    requires Inv(db, older) && Stamped(db, f.runId, By(seed, "fail")) && db.runs[f.runId].state == Failed
    requires PlacedStands(db, f, seed)
    ensures FailRows(db, f, seed) == db
  {
    hide Inv, Successor, Current;
    NoWaitToReap(db, older, f.runId, By(seed, "fail"));
    assert RunFailed(db, f, seed) == db.runs;
    SagaArmYields(db, f, By(seed, "fail"), seed);
    PlacedRunYields(db, f, seed);
    assert TaskRetrying(db, f, seed) == db.tasks;
    assert RetryArm(db, f, seed) == db;
  }

  /** What a delivery of an ended batch does to a task that is live again: it fails it, or starts it a second run. */
  lemma RevivedRowsChange(db: Db, f: Failure, taskId: string, seed: nat)
    requires FailureStands(db, f, taskId, seed) && BroughtBack(db, f, taskId, seed) && Owns(db, db.runs[f.runId])
    ensures var after := FailStatements(db, f, taskId, seed);
      taskId in after.tasks && (after.tasks[taskId].state == Failed || f.nextId in after.runs)
  {
    var rows := FailRows(db, f, seed);
    assert taskId in rows.tasks && (rows.tasks[taskId].state == Failed || f.nextId in rows.runs);
  }

  /** A delivery after the batch failed its run: the claim is gone, so the one atomic step is refused. */
  lemma FailReturns(db: Db, older: set<string>, f: Failure, taskId: string, seed: nat)
    requires Inv(db, older) && FailureStands(db, f, taskId, seed) && Stamped(db, f.runId, By(seed, "fail"))
    ensures FailStatements(db, f, taskId, seed) == db <==> !BroughtBack(db, f, taskId, seed)
  {
    if BroughtBack(db, f, taskId, seed) {
      RevivedRowsChange(db, f, taskId, seed);
    } else {
      if EndedByThis(db, f, taskId, seed) {
        EndedRowsStay(db, older, f, taskId, seed);
      } else {
        PlacedRowsStay(db, older, f, seed);
      }
      TailAgain(db, older, f.queue, taskId, TerminalStamp(f, seed), Outcome(Failed, None, Some(f.reason)), seed);
    }
  }

  /**
   * Whenever they arrive, the statements of a failure are its one atomic step taken then, exactly
   * when the task is not one this batch ended and a revival brought back. No statement of the
   * batch can tell that revival from the row it ended.
   */
  lemma FailDelivers(db: Db, older: set<string>, f: Failure, taskId: string, seed: nat)
    requires Inv(db, older) && f.runId in db.runs && FailureStands(db, f, taskId, seed)
    ensures FailStatements(db, f, taskId, seed) == Fail(db, f, seed) <==> !BroughtBack(db, f, taskId, seed)
  {
    if Stamped(db, f.runId, By(seed, "fail")) {
      FailReturns(db, older, f, taskId, seed);
    } else if FailAdmits(db, f) {
      FailWins(db, older, f, taskId, seed);
    } else {
      FailAdmitsWinner(db, older, f, seed);
      NothingOfThis(db, f, seed);
      TailAgain(db, older, f.queue, taskId, TerminalStamp(f, seed), Outcome(Failed, None, Some(f.reason)), seed);
    }
  }

  lemma FailureRetried(db: Db, f: Failure, taskId: string, seed: nat)
    requires FailAdmits(db, f) && FailureStands(db, f, taskId, seed)
    requires AfterFailure(db.tasks[taskId], db.runs[f.runId], f).Retries?
    ensures FailureStands(FailRetries(db, f, seed), f, taskId, seed)
  {
    assert FailRetries(db, f, seed).runs[f.runId] == Close(db.runs[f.runId], FailClosing(seed));
  }

  lemma FailureRolledBack(db: Db, f: Failure, enters: bool, taskId: string, seed: nat)
    requires FailAdmits(db, f) && FailureStands(db, f, taskId, seed)
    requires AfterFailure(db.tasks[taskId], db.runs[f.runId], f) == RollsBack(enters)
    ensures FailureStands(FailRollsBack(db, f, enters, seed), f, taskId, seed)
  {
    assert FailRollsBack(db, f, enters, seed).runs[f.runId] == Close(db.runs[f.runId], FailClosing(seed));
  }

  lemma FailureEnded(db: Db, older: set<string>, f: Failure, taskId: string, seed: nat)
    requires Inv(db, older) && FailAdmits(db, f) && FailureStands(db, f, taskId, seed)
    ensures FailureStands(FailEnds(db, f, seed), f, taskId, seed)
  {
    var run := db.runs[f.runId];
    var task := db.tasks[taskId];
    LiveRunIsTop(db, f.runId);
    EndTaskLeaves(db, taskId, f.runId,
                  task.(attempts := UserAttempts(run, task), state := Failed, reason := Some(f.reason),
                        stamp := TerminalStamp(f, seed)), FailClosing(seed), seed);
  }

  lemma FailLeaves(db: Db, older: set<string>, f: Failure, taskId: string, seed: nat)
    requires Inv(db, older) && f.runId in db.runs && FailureStands(db, f, taskId, seed)
    ensures FailureStands(Fail(db, f, seed), f, taskId, seed)
  {
    if FailAdmits(db, f) {
      match AfterFailure(db.tasks[taskId], db.runs[f.runId], f)
      case Retries => FailureRetried(db, f, taskId, seed);
      case RollsBack(enters) => FailureRolledBack(db, f, enters, taskId, seed);
      case EndsTask => FailureEnded(db, older, f, taskId, seed);
    }
  }

  /** Other batches leave it standing, as none mints the id this one minted. */
  lemma FailureStandsOn(db: Db, after: Db, f: Failure, taskId: string, seed: nat)
    requires f.runId in db.runs && FailureStands(db, f, taskId, seed) && Follows(db, after, seed)
    requires f.nextId in after.runs ==> f.nextId in db.runs
    ensures FailureStands(after, f, taskId, seed)
  {
  }

  /** A second delivery, back to back, finds what the first left and changes nothing. */
  lemma FailAgain(first: Db, older: set<string>, f: Failure, taskId: string, seed: nat)
    requires Inv(first, older) && Unspent(first, seed) && f.nextId !in first.runs
    requires f.runId in first.runs && taskId == first.runs[f.runId].taskId
    ensures FailStatements(Fail(first, f, seed), f, taskId, seed) == Fail(first, f, seed)
  {
    var db := Fail(first, f, seed);
    FailKeeps(first, older, f, seed);
    FailLeaves(first, older, f, taskId, seed);
    FailsOnce(first, f, seed);
    NotBroughtBack(first, older, f, taskId, seed);
    FailDelivers(db, older, f, taskId, seed);
  }

  lemma FailCloses(db: Db, f: Failure, seed: nat)
    ensures var after := Fail(db, f, seed); after == db || (f.runId in after.runs && after.runs[f.runId].state == Failed)
  {
    hide EndTask, Current, AfterFailure;
    if FailAdmits(db, f) {
      FailAdmitsOwner(db, f);
      var run := db.runs[f.runId];
      var task := db.tasks[run.taskId];
      EndTaskCloses(db, run.taskId,
                    task.(attempts := UserAttempts(run, task), state := Failed, reason := Some(f.reason),
                          stamp := By(seed, if f.retryMs.Some? && !f.rollback then "task-terminal" else "task")),
                    FailClosing(seed), seed, f.runId);
    }
  }

  lemma FailsOnce(first: Db, f: Failure, seed: nat)
    requires f.runId in first.runs
    ensures f.runId in Fail(first, f, seed).runs && Fail(Fail(first, f, seed), f, seed) == Fail(first, f, seed)
  {
    hide FailRetries, FailRollsBack, FailEnds, Current, AfterFailure;
    FailCloses(first, f, seed);
  }

  lemma PlacedIsNotBroughtBack(first: Db, f: Failure, taskId: string, seed: nat)
    requires FailAdmits(first, f) && taskId == first.runs[f.runId].taskId
    requires !AfterFailure(first.tasks[taskId], first.runs[f.runId], f).EndsTask?
    ensures !BroughtBack(Fail(first, f, seed), f, taskId, seed)
  {
    hide Current, EntersSaga, CloseRuns;
  }

  lemma EndedIsNotBroughtBack(first: Db, older: set<string>, f: Failure, taskId: string, seed: nat)
    requires Inv(first, older) && Unspent(first, seed) && FailAdmits(first, f) && taskId == first.runs[f.runId].taskId
    ensures !BroughtBack(FailEnds(first, f, seed), f, taskId, seed)
  {
    hide Awaited, Manned, Mirrored, Settled, EndTask;
    LiveRunIsTop(first, f.runId);
    EndTaskLeaves(first, taskId, f.runId,
                  first.tasks[taskId].(attempts := UserAttempts(first.runs[f.runId], first.tasks[taskId]), state := Failed,
                    reason := Some(f.reason), stamp := TerminalStamp(f, seed)), FailClosing(seed), seed);
  }

  lemma NotBroughtBack(first: Db, older: set<string>, f: Failure, taskId: string, seed: nat)
    requires Inv(first, older) && Unspent(first, seed) && f.runId in first.runs && taskId == first.runs[f.runId].taskId
    ensures !BroughtBack(Fail(first, f, seed), f, taskId, seed)
  {
    hide Inv, Current, FailEnds, FailRetries, FailRollsBack;
    if FailAdmits(first, f) {
      if AfterFailure(first.tasks[taskId], first.runs[f.runId], f).EndsTask? {
        EndedIsNotBroughtBack(first, older, f, taskId, seed);
      } else {
        PlacedIsNotBroughtBack(first, f, taskId, seed);
      }
    }
  }
}
