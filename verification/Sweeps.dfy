/**
 * The two lease sweeps, statement by statement. Each finds a run whose claim expired, and its
 * next run's identity is what tells a delivery of it from the one that placed that run.
 */
module Sweeps {
  import opened Options
  import opened Tables
  import opened Protocol
  import opened ProtocolInvariant
  import opened ProtocolSteps
  import opened Statements
  import opened Batches
  import opened ProtocolFollows
  import opened SagaPass

  /** The expired claim a scan read, and the id its sweep mints for the run it may place. */
  datatype Sweeping = Sweeping(queue: string, runId: string, gen: nat, nextId: string)

  /** A cap's decision as the failure its rollback pass and its ending carry out. */
  function AtCapOf(sw: Sweeping, reason: string): Failure {
    Failure(sw.queue, sw.runId, "", reason, None, sw.nextId, false)
  }

  /** The compare-and-set of either sweep: the scan's claim, still running and expired, with an owner that fits. */
  predicate StillSwept(db: Db, sw: Sweeping) {
    && sw.runId in db.runs
    && db.runs[sw.runId].queue == sw.queue && db.runs[sw.runId].state == Running && db.runs[sw.runId].claimGen == sw.gen
    && Expired(db.runs[sw.runId], db.now) && Owns(db, db.runs[sw.runId])
    && (db.tasks[db.runs[sw.runId].taskId].state.Live() ==> Current(db, sw.runId))
  }

  /** The task's end at a cap, unless this batch placed a run. */
  function TaskCapped(db: Db, sw: Sweeping, reason: string, fence: Stamp, terminal: Stamp): map<string, Task> {
    if FailedUnder(db, sw.runId, fence) && !SuccessorOwned(db, sw.nextId, db.runs[sw.runId])
    then db.tasks[db.runs[sw.runId].taskId :=
                    db.tasks[db.runs[sw.runId].taskId].(state := Failed, reason := Some(reason), stamp := terminal)]
    else db.tasks
  }

  lemma SweptWhenRunning(db: Db, older: set<string>, sw: Sweeping)
    requires Inv(db, older)
    ensures StillSwept(db, sw) <==> Swept(db, sw.queue, sw.runId, sw.gen)
  {
    if StillSwept(db, sw) {
      assert db.tasks[db.runs[sw.runId].taskId].state == Running;
    }
  }

  lemma SweptIsOwned(db: Db, queue: string, id: string, gen: nat)
    requires Swept(db, queue, id, gen)
    ensures Owns(db, db.runs[id]) && Accounted(db.runs[id], db.tasks[db.runs[id].taskId])
  {
  }

  // ------------------------------------------------------------------------------------------
  // What both leave, if they were delivered.

  /** The sweep failed its run, placed no run, and ended the task. */
  ghost predicate CappedByThis(db: Db, sw: Sweeping, taskId: string, fence: Stamp) {
    && Stamped(db, sw.runId, fence) && sw.nextId !in db.runs
    && taskId in db.tasks && (sw.queue, TaskDone(taskId)) in db.events
  }

  /** The task this sweep ended was brought back since. */
  ghost predicate CapUndone(db: Db, sw: Sweeping, taskId: string, fence: Stamp) {
    CappedByThis(db, sw, taskId, fence) && db.tasks[taskId].state.Live()
  }

  /** The pass it placed, and while the pass bears its stamp, the task as the sweep left it. */
  ghost predicate PassPlaced(db: Db, sw: Sweeping, reason: string, seed: nat)
    requires sw.runId in db.runs
  {
    && SuccessorOwned(db, sw.nextId, db.runs[sw.runId]) && db.runs[sw.runId].taskId in db.tasks
    && (PassOfThis(db, AtCapOf(sw, reason), seed) ==>
          db.runs[sw.nextId].state.Live() && PassStands(db, AtCapOf(sw, reason), seed))
  }

  ghost predicate CapStands(db: Db, sw: Sweeping, taskId: string, reason: string, fence: Stamp, terminal: Stamp, seed: nat) {
    && NoneHalfWoken(db, seed)
    && (sw.runId in db.runs ==> db.runs[sw.runId].taskId == taskId)
    && (Stamped(db, sw.runId, fence) ==>
          && db.runs[sw.runId].state == Failed
          && (CappedByThis(db, sw, taskId, fence) || PassPlaced(db, sw, reason, seed)))
    && (sw.nextId in db.runs || !Untold(db, sw.queue, taskId, seed) ==> Stamped(db, sw.runId, fence))
    && (taskId in db.tasks && db.tasks[taskId].stamp == terminal ==> (sw.queue, TaskDone(taskId)) in db.events)
  }

  lemma CapStandsOn(db: Db, after: Db, sw: Sweeping, taskId: string, reason: string, fence: Stamp, terminal: Stamp, seed: nat)
    requires sw.runId in db.runs && CapStands(db, sw, taskId, reason, fence, terminal, seed) && Follows(db, after, seed)
    requires Bears(fence, seed) && Bears(terminal, seed) && (sw.nextId in after.runs ==> sw.nextId in db.runs)
    ensures CapStands(after, sw, taskId, reason, fence, terminal, seed)
  {
  }

  // ------------------------------------------------------------------------------------------
  // `sweep:claim-timeout`.

  function TimeoutClosing(seed: nat): Closing {
    Closing(Failed, false, false, By(seed, "fail"))
  }

  function RunTimedOut(db: Db, sw: Sweeping, seed: nat): map<string, Run> {
    if StillSwept(db, sw) && db.runs[sw.runId].activatedGen == sw.gen
    then db.runs[sw.runId := Close(db.runs[sw.runId], TimeoutClosing(seed))] else db.runs
  }

  /** `successor`, below the cap. */
  function RetryPlaced(db: Db, sw: Sweeping, seed: nat): map<string, Run> {
    if FailedUnder(db, sw.runId, By(seed, "fail")) && db.tasks[db.runs[sw.runId].taskId].infraRetries < INFRA_RETRY_CAP
       && !SuccessorOwned(db, sw.nextId, db.runs[sw.runId])
    then db.runs[sw.nextId := Successor(db.runs[sw.runId], Pending, db.now + INFRA_BACKOFF_MS, By(seed, "successor"))]
    else db.runs
  }

  /** `task-terminal`, at the cap. */
  function TaskTimedOut(db: Db, sw: Sweeping, seed: nat): map<string, Task> {
    if Stamped(db, sw.runId, By(seed, "fail")) && Owns(db, db.runs[sw.runId])
       && db.tasks[db.runs[sw.runId].taskId].infraRetries == INFRA_RETRY_CAP
    then TaskCapped(db, sw, REASON_INFRA_CAP, By(seed, "fail"), By(seed, "task-terminal")) else db.tasks
  }

  /** Every run before this ordinal that was not a user attempt. */
  function InfraRetriesFrom(attempt: nat, task: Task): nat {
    if attempt > task.attempts then attempt - 1 - task.attempts else 0
  }

  /** `bookkeeping`: the retry counter of the ordinal the successor has, and not one more than the last. */
  function RetryBooked(db: Db, sw: Sweeping, seed: nat): map<string, Task> {
    if Stamped(db, sw.nextId, By(seed, "successor")) && db.runs[sw.nextId].taskId in db.tasks
       && db.tasks[db.runs[sw.nextId].taskId].state.Live()
    then
      var task := db.tasks[db.runs[sw.nextId].taskId];
      db.tasks[db.runs[sw.nextId].taskId := task.(infraRetries := InfraRetriesFrom(db.runs[sw.nextId].attempt, task),
                                                  state := Pending, stamp := By(seed, "bookkeeping"))]
    else db.tasks
  }

  /** The three arms over the run the compare-and-set failed. */
  function TimeoutArms(db: Db, sw: Sweeping, seed: nat): Db {
    var placed := db.(runs := RetryPlaced(db, sw, seed));
    var passed := SagaArm(placed, AtCapOf(sw, REASON_INFRA_CAP), By(seed, "fail"), seed);
    var capped := passed.(tasks := TaskTimedOut(passed, sw, seed));
    capped.(tasks := RetryBooked(capped, sw, seed))
  }

  function TimeoutRows(db: Db, sw: Sweeping, seed: nat): Db {
    var arms := TimeoutArms(db.(runs := RunTimedOut(db, sw, seed)), sw, seed);
    arms.(waits := WaitsGone(arms, sw.runId, By(seed, "fail")))
  }

  function TimeoutStatements(db: Db, sw: Sweeping, taskId: string, seed: nat): Db {
    Tail(TimeoutRows(db, sw, seed), sw.queue, taskId, By(seed, "task-terminal"),
         Outcome(Failed, None, Some(REASON_INFRA_CAP)), seed)
  }

  function TimeoutOf(db: Db, sw: Sweeping, seed: nat): Db {
    SweepClaimTimeout(db, sw.queue, sw.runId, sw.gen, sw.nextId, seed)
  }

  /** The retry it placed, and while that run bears its stamp, the task as the sweep left it. */
  ghost predicate RetryStands(db: Db, sw: Sweeping, seed: nat) {
    Stamped(db, sw.nextId, By(seed, "successor")) ==>
      && db.runs[sw.nextId].state == Pending && db.runs[sw.nextId].taskId in db.tasks
      && var task := db.tasks[db.runs[sw.nextId].taskId];
      && task.state == Pending && task.stamp == By(seed, "bookkeeping")
      && task.infraRetries == InfraRetriesFrom(db.runs[sw.nextId].attempt, task)
  }

  ghost predicate TimeoutStands(db: Db, sw: Sweeping, taskId: string, seed: nat) {
    && CapStands(db, sw, taskId, REASON_INFRA_CAP, By(seed, "fail"), By(seed, "task-terminal"), seed)
    && RetryStands(db, sw, seed)
  }

  /** The rows after a compare-and-set that won. */
  ghost predicate JustTimedOut(db: Db, failed: Db, sw: Sweeping, seed: nat) {
    && JustClosed(db, failed, AtCapOf(sw, REASON_INFRA_CAP), TimeoutClosing(seed))
    && Accounted(db.runs[sw.runId], db.tasks[db.runs[sw.runId].taskId])
  }

  lemma TimeoutCasWins(db: Db, sw: Sweeping, seed: nat)
    requires Swept(db, sw.queue, sw.runId, sw.gen) && db.runs[sw.runId].activatedGen == sw.gen && sw.nextId !in db.runs
    ensures JustTimedOut(db, db.(runs := RunTimedOut(db, sw, seed)), sw, seed)
  {
  }

  lemma TimeoutRetried(db: Db, failed: Db, sw: Sweeping, seed: nat)
    requires JustTimedOut(db, failed, sw, seed) && db.tasks[db.runs[sw.runId].taskId].infraRetries < INFRA_RETRY_CAP
    ensures var run := db.runs[sw.runId]; var task := db.tasks[run.taskId];
      TimeoutArms(failed, sw, seed)
      == failed.(runs := failed.runs[sw.nextId := Successor(run, Pending, db.now + INFRA_BACKOFF_MS, By(seed, "successor"))],
                 tasks := db.tasks[run.taskId := task.(infraRetries := run.attempt - task.attempts, state := Pending,
                                                       stamp := By(seed, "bookkeeping"))])
  {
    var placed := failed.(runs := RetryPlaced(failed, sw, seed));
    SagaArmYields(placed, AtCapOf(sw, REASON_INFRA_CAP), By(seed, "fail"), seed);
    assert TaskTimedOut(placed, sw, seed) == placed.tasks;
  }

  lemma TimeoutRolledBack(db: Db, failed: Db, sw: Sweeping, seed: nat)
    requires JustTimedOut(db, failed, sw, seed) && db.tasks[db.runs[sw.runId].taskId].infraRetries == INFRA_RETRY_CAP
    requires EntersSaga(db.tasks[db.runs[sw.runId].taskId])
    ensures TimeoutArms(failed, sw, seed) == SagaArm(failed, AtCapOf(sw, REASON_INFRA_CAP), By(seed, "fail"), seed)
  {
    assert RetryPlaced(failed, sw, seed) == failed.runs;
    SagaArmPlaces(db, failed, AtCapOf(sw, REASON_INFRA_CAP), TimeoutClosing(seed), seed);
  }

  lemma TimeoutEnded(db: Db, failed: Db, sw: Sweeping, seed: nat)
    requires JustTimedOut(db, failed, sw, seed) && db.tasks[db.runs[sw.runId].taskId].infraRetries == INFRA_RETRY_CAP
    requires !EntersSaga(db.tasks[db.runs[sw.runId].taskId])
    ensures var taskId := db.runs[sw.runId].taskId;
      TimeoutArms(failed, sw, seed)
      == failed.(tasks := db.tasks[taskId := db.tasks[taskId].(state := Failed, reason := Some(REASON_INFRA_CAP),
                                                              stamp := By(seed, "task-terminal"))])
  {
    assert RetryPlaced(failed, sw, seed) == failed.runs;
    NoSagaArm(db, failed, AtCapOf(sw, REASON_INFRA_CAP), TimeoutClosing(seed), seed);
  }

  /** The timed-out run is all that closing its task's runs closes. */
  ghost predicate TimeoutClosesOne(db: Db, failed: Db, sw: Sweeping, seed: nat)
    requires sw.runId in db.runs
  {
    var closed := CloseRuns(db, db.runs[sw.runId].taskId, TimeoutClosing(seed));
    failed == db.(runs := RunTimedOut(db, sw, seed)) && closed.runs == failed.runs
    && closed.waits == (map key | key in db.waits && key.0 != sw.runId :: db.waits[key])
  }

  lemma TimeoutCloses(db: Db, older: set<string>, sw: Sweeping, seed: nat)
    requires Inv(db, older) && Swept(db, sw.queue, sw.runId, sw.gen) && db.runs[sw.runId].activatedGen == sw.gen
    ensures TimeoutClosesOne(db, db.(runs := RunTimedOut(db, sw, seed)), sw, seed)
  {
    OneRunCloses(db, older, sw.runId, TimeoutClosing(seed));
  }

  lemma TimeoutRowsRetry(db: Db, failed: Db, sw: Sweeping, seed: nat)
    requires JustTimedOut(db, failed, sw, seed) && TimeoutClosesOne(db, failed, sw, seed)
    requires db.tasks[db.runs[sw.runId].taskId].infraRetries < INFRA_RETRY_CAP
    ensures TimeoutRows(db, sw, seed) == TimeoutRetries(db, sw.runId, sw.nextId, TimeoutClosing(seed), seed)
  {
    hide TimeoutArms, RunTimedOut;
    TimeoutRetried(db, failed, sw, seed);
  }

  lemma TimeoutRowsRollBack(db: Db, failed: Db, sw: Sweeping, seed: nat)
    requires JustTimedOut(db, failed, sw, seed) && TimeoutClosesOne(db, failed, sw, seed)
    requires db.tasks[db.runs[sw.runId].taskId].infraRetries == INFRA_RETRY_CAP && EntersSaga(db.tasks[db.runs[sw.runId].taskId])
    ensures TimeoutRows(db, sw, seed)
         == AtCap(db, sw.runId, sw.nextId, REASON_INFRA_CAP, TimeoutClosing(seed), By(seed, "task-terminal"), seed)
  {
    hide TimeoutArms, RunTimedOut, SagaArm;
    TimeoutRolledBack(db, failed, sw, seed);
    SagaArmPlaces(db, failed, AtCapOf(sw, REASON_INFRA_CAP), TimeoutClosing(seed), seed);
  }

  lemma TimeoutRowsEnd(db: Db, failed: Db, sw: Sweeping, seed: nat)
    requires JustTimedOut(db, failed, sw, seed) && TimeoutClosesOne(db, failed, sw, seed)
    requires db.tasks[db.runs[sw.runId].taskId].infraRetries == INFRA_RETRY_CAP && !EntersSaga(db.tasks[db.runs[sw.runId].taskId])
    ensures var taskId := db.runs[sw.runId].taskId;
      TimeoutRows(db, sw, seed)
      == Ended(db, taskId, db.tasks[taskId].(state := Failed, reason := Some(REASON_INFRA_CAP), stamp := By(seed, "task-terminal")),
               TimeoutClosing(seed))
  {
    hide TimeoutArms, RunTimedOut;
    TimeoutEnded(db, failed, sw, seed);
  }

  /** A delivery that finds the claim still there is the sweep's one atomic step. */
  lemma TimeoutWins(db: Db, older: set<string>, sw: Sweeping, taskId: string, seed: nat)
    requires Inv(db, older) && NoneHalfWoken(db, seed) && Untold(db, sw.queue, taskId, seed)
    requires Swept(db, sw.queue, sw.runId, sw.gen) && db.runs[sw.runId].activatedGen == sw.gen
    requires sw.nextId !in db.runs && taskId == db.runs[sw.runId].taskId
    ensures TimeoutStatements(db, sw, taskId, seed) == TimeoutOf(db, sw, seed)
  {
    hide TimeoutRows, RunTimedOut, Tail, Wake;
    var failed := db.(runs := RunTimedOut(db, sw, seed));
    TimeoutCasWins(db, sw, seed);
    TimeoutCloses(db, older, sw, seed);
    assert TaskFits(db.tasks[taskId]);
    if db.tasks[taskId].infraRetries < INFRA_RETRY_CAP {
      TimeoutRowsRetry(db, failed, sw, seed);
    } else if EntersSaga(db.tasks[taskId]) {
      TimeoutRowsRollBack(db, failed, sw, seed);
    } else {
      TimeoutRowsEnd(db, failed, sw, seed);
    }
    TailTells(TimeoutRows(db, sw, seed), sw.queue, taskId, By(seed, "task-terminal"),
              Outcome(Failed, None, Some(REASON_INFRA_CAP)), seed);
  }

  lemma TimeoutRowsStay(db: Db, older: set<string>, sw: Sweeping, taskId: string, seed: nat)
    requires Inv(db, older) && TimeoutStands(db, sw, taskId, seed) && Stamped(db, sw.runId, By(seed, "fail"))
    requires !CapUndone(db, sw, taskId, By(seed, "fail"))
    ensures TimeoutRows(db, sw, seed) == db
  {
    hide Inv, Successor, Current;
    NoWaitToReap(db, older, sw.runId, By(seed, "fail"));
    assert RunTimedOut(db, sw, seed) == db.runs && RetryPlaced(db, sw, seed) == db.runs;
    SagaArmYields(db, AtCapOf(sw, REASON_INFRA_CAP), By(seed, "fail"), seed);
    assert TaskTimedOut(db, sw, seed) == db.tasks;
    assert RetryBooked(db, sw, seed) == db.tasks;
  }

  /** A task brought back is failed again, or given a second run. */
  lemma TimeoutRowsChange(db: Db, sw: Sweeping, taskId: string, seed: nat)
    requires TimeoutStands(db, sw, taskId, seed) && CapUndone(db, sw, taskId, By(seed, "fail"))
    requires Owns(db, db.runs[sw.runId]) && TaskFits(db.tasks[taskId])
    ensures var after := TimeoutStatements(db, sw, taskId, seed);
      taskId in after.tasks && (after.tasks[taskId].state == Failed || sw.nextId in after.runs)
  {
    var rows := TimeoutRows(db, sw, seed);
    assert RunTimedOut(db, sw, seed) == db.runs;
    assert taskId in rows.tasks && (rows.tasks[taskId].state == Failed || sw.nextId in rows.runs);
  }

  lemma TimeoutLoses(db: Db, sw: Sweeping, seed: nat)
    requires RunTimedOut(db, sw, seed) == db.runs && !Stamped(db, sw.runId, By(seed, "fail")) && sw.nextId !in db.runs
    ensures TimeoutRows(db, sw, seed) == db
  {
    assert SagaArm(db, AtCapOf(sw, REASON_INFRA_CAP), By(seed, "fail"), seed) == db;
    assert TimeoutArms(db, sw, seed) == db;
  }

  /**
   * Whenever they arrive, the statements of the sweep are its one atomic step taken then, exactly
   * when the task is not one this sweep ended at the cap and a revival brought back. Over the
   * retry it placed, or the pass, a replay never ends the task.
   */
  lemma TimeoutDelivers(db: Db, older: set<string>, sw: Sweeping, taskId: string, seed: nat)
    requires Inv(db, older) && sw.runId in db.runs && TimeoutStands(db, sw, taskId, seed)
    ensures TimeoutStatements(db, sw, taskId, seed) == TimeoutOf(db, sw, seed)
       <==> !CapUndone(db, sw, taskId, By(seed, "fail"))
  {
    SweptWhenRunning(db, older, sw);
    if CapUndone(db, sw, taskId, By(seed, "fail")) {
      TimeoutRowsChange(db, sw, taskId, seed);
    } else if Swept(db, sw.queue, sw.runId, sw.gen) && db.runs[sw.runId].activatedGen == sw.gen {
      TimeoutWins(db, older, sw, taskId, seed);
    } else {
      if Stamped(db, sw.runId, By(seed, "fail")) {
        TimeoutRowsStay(db, older, sw, taskId, seed);
      } else {
        TimeoutLoses(db, sw, seed);
      }
      TailAgain(db, older, sw.queue, taskId, By(seed, "task-terminal"), Outcome(Failed, None, Some(REASON_INFRA_CAP)), seed);
    }
  }

  lemma TimeoutRetryLeaves(db: Db, sw: Sweeping, taskId: string, seed: nat)
    requires Swept(db, sw.queue, sw.runId, sw.gen) && TimeoutStands(db, sw, taskId, seed)
    ensures TimeoutStands(TimeoutRetries(db, sw.runId, sw.nextId, TimeoutClosing(seed), seed), sw, taskId, seed)
  {
    assert TimeoutRetries(db, sw.runId, sw.nextId, TimeoutClosing(seed), seed).runs[sw.runId]
        == Close(db.runs[sw.runId], TimeoutClosing(seed));
  }

  /** The stamps of a cap's closing and of its ending. */
  predicate CapStamps(how: Closing, terminal: Stamp, seed: nat) {
    && how.state == Failed && !how.clearsWake
    && (how.stamp == By(seed, "fail") || how.stamp == By(seed, "cap"))
    && (terminal == By(seed, "task-terminal") || terminal == By(seed, "task-fail"))
  }

  lemma CapPassLeaves(db: Db, sw: Sweeping, taskId: string, reason: string, how: Closing, terminal: Stamp, seed: nat)
    requires Swept(db, sw.queue, sw.runId, sw.gen) && sw.nextId !in db.runs && CapStamps(how, terminal, seed)
    requires CapStands(db, sw, taskId, reason, how.stamp, terminal, seed) && EntersSaga(db.tasks[db.runs[sw.runId].taskId])
    ensures CapStands(AtCap(db, sw.runId, sw.nextId, reason, how, terminal, seed), sw, taskId, reason, how.stamp, terminal, seed)
  {
    assert AtCap(db, sw.runId, sw.nextId, reason, how, terminal, seed).runs[sw.runId] == Close(db.runs[sw.runId], how);
  }

  lemma CapEndLeaves(db: Db, sw: Sweeping, taskId: string, reason: string, how: Closing, terminal: Stamp, seed: nat)
    requires Fits(db) && Numbered(db) && Swept(db, sw.queue, sw.runId, sw.gen) && sw.nextId !in db.runs
    requires CapStands(db, sw, taskId, reason, how.stamp, terminal, seed) && CapStamps(how, terminal, seed)
    ensures CapStands(EndTask(db, taskId, db.tasks[taskId].(state := Failed, reason := Some(reason), stamp := terminal), how, seed),
                      sw, taskId, reason, how.stamp, terminal, seed)
  {
    hide EndTask;
    var ended := db.tasks[taskId].(state := Failed, reason := Some(reason), stamp := terminal);
    LiveRunIsTop(db, sw.runId);
    EndTaskLeaves(db, taskId, sw.runId, ended, how, seed);
    EndTaskPlacesNothing(db, taskId, ended, how, seed);
  }

  lemma EndTaskPlacesNothing(db: Db, taskId: string, ended: Task, how: Closing, seed: nat)
    ensures EndTask(db, taskId, ended, how, seed).runs.Keys == db.runs.Keys
  {
  }

  /** A cap leaves its pass, or the ended task with its event. */
  lemma CapLeaves(db: Db, older: set<string>, sw: Sweeping, taskId: string, reason: string, how: Closing, terminal: Stamp,
                  seed: nat)
    requires Inv(db, older) && Swept(db, sw.queue, sw.runId, sw.gen) && sw.nextId !in db.runs
    requires CapStands(db, sw, taskId, reason, how.stamp, terminal, seed) && CapStamps(how, terminal, seed)
    ensures CapStands(AtCap(db, sw.runId, sw.nextId, reason, how, terminal, seed), sw, taskId, reason, how.stamp, terminal, seed)
  {
    hide EndTask, Succeed, Fits, Numbered;
    if EntersSaga(db.tasks[taskId]) {
      CapPassLeaves(db, sw, taskId, reason, how, terminal, seed);
    } else {
      CapEndLeaves(db, sw, taskId, reason, how, terminal, seed);
    }
  }

  lemma CapPlacesNoRetry(db: Db, sw: Sweeping, reason: string, how: Closing, terminal: Stamp, seed: nat)
    requires sw.runId in db.runs && Owns(db, db.runs[sw.runId]) && sw.nextId !in db.runs
    ensures !Stamped(AtCap(db, sw.runId, sw.nextId, reason, how, terminal, seed), sw.nextId, By(seed, "successor"))
  {
  }

  lemma TimeoutLeaves(db: Db, older: set<string>, sw: Sweeping, taskId: string, seed: nat)
    requires Inv(db, older) && sw.runId in db.runs && TimeoutStands(db, sw, taskId, seed)
    ensures TimeoutStands(TimeoutOf(db, sw, seed), sw, taskId, seed)
  {
    hide CapStands, RetryStands, AtCap, TimeoutRetries;
    if Swept(db, sw.queue, sw.runId, sw.gen) && db.runs[sw.runId].activatedGen == sw.gen && sw.nextId !in db.runs {
      if db.tasks[db.runs[sw.runId].taskId].infraRetries < INFRA_RETRY_CAP {
        TimeoutRetryLeaves(db, sw, taskId, seed);
      } else {
        CapLeaves(db, older, sw, taskId, REASON_INFRA_CAP, TimeoutClosing(seed), By(seed, "task-terminal"), seed);
        CapPlacesNoRetry(db, sw, REASON_INFRA_CAP, TimeoutClosing(seed), By(seed, "task-terminal"), seed);
        NoRetryStands(TimeoutOf(db, sw, seed), sw, seed);
      }
    }
  }

  lemma NoRetryStands(db: Db, sw: Sweeping, seed: nat)
    requires !Stamped(db, sw.nextId, By(seed, "successor"))
    ensures RetryStands(db, sw, seed)
  {
  }

  lemma TimeoutStandsOn(db: Db, after: Db, sw: Sweeping, taskId: string, seed: nat)
    requires sw.runId in db.runs && TimeoutStands(db, sw, taskId, seed) && Follows(db, after, seed)
    requires sw.nextId in after.runs ==> sw.nextId in db.runs
    ensures TimeoutStands(after, sw, taskId, seed)
  {
    CapStandsOn(db, after, sw, taskId, REASON_INFRA_CAP, By(seed, "fail"), By(seed, "task-terminal"), seed);
  }

  /** A cap that has just decided leaves its task ended, or a run of its own. */
  lemma CapNotUndone(db: Db, sw: Sweeping, taskId: string, reason: string, how: Closing, terminal: Stamp, fence: Stamp, seed: nat)
    requires sw.runId in db.runs && Owns(db, db.runs[sw.runId]) && taskId == db.runs[sw.runId].taskId
    ensures !CapUndone(AtCap(db, sw.runId, sw.nextId, reason, how, terminal, seed), sw, taskId, fence)
  {
  }

  lemma TimeoutMovesRun(first: Db, sw: Sweeping, seed: nat)
    requires sw.runId in first.runs
    ensures sw.runId in TimeoutOf(first, sw, seed).runs
    ensures TimeoutOf(first, sw, seed) == first || TimeoutOf(first, sw, seed).runs[sw.runId].state != Running
  {
    hide Current, AtCap;
    if Swept(first, sw.queue, sw.runId, sw.gen) && sw.nextId !in first.runs {
      SweptIsOwned(first, sw.queue, sw.runId, sw.gen);
      AtCapCloses(first, sw.runId, sw.nextId, REASON_INFRA_CAP, TimeoutClosing(seed), By(seed, "task-terminal"), seed);
    }
  }

  lemma TimesOutOnce(first: Db, sw: Sweeping, seed: nat)
    requires sw.runId in first.runs
    ensures TimeoutOf(TimeoutOf(first, sw, seed), sw, seed) == TimeoutOf(first, sw, seed)
  {
    hide Current, AtCap, TimeoutRetries;
    TimeoutMovesRun(first, sw, seed);
  }

  lemma TimeoutNotUndone(first: Db, sw: Sweeping, taskId: string, seed: nat)
    requires Unspent(first, seed) && sw.runId in first.runs && taskId == first.runs[sw.runId].taskId
    ensures !CapUndone(TimeoutOf(first, sw, seed), sw, taskId, By(seed, "fail"))
  {
    hide Current, AtCap;
    if Swept(first, sw.queue, sw.runId, sw.gen) {
      SweptIsOwned(first, sw.queue, sw.runId, sw.gen);
      CapNotUndone(first, sw, taskId, REASON_INFRA_CAP, TimeoutClosing(seed), By(seed, "task-terminal"), By(seed, "fail"), seed);
    }
  }

  /** A second delivery, back to back, leaves the successor of the first in place. */
  lemma TimeoutAgain(first: Db, older: set<string>, sw: Sweeping, taskId: string, seed: nat)
    requires Inv(first, older) && Unspent(first, seed) && sw.nextId !in first.runs
    requires sw.runId in first.runs && taskId == first.runs[sw.runId].taskId
    ensures TimeoutStatements(TimeoutOf(first, sw, seed), sw, taskId, seed) == TimeoutOf(first, sw, seed)
  {
    hide CapStands, RetryStands, CapUndone, SweepClaimTimeout;
    TimeoutUnspent(first, sw, taskId, seed);
    ClaimTimeoutKeeps(first, older, sw.queue, sw.runId, sw.gen, sw.nextId, seed);
    TimeoutLeaves(first, older, sw, taskId, seed);
    TimesOutOnce(first, sw, seed);
    TimeoutMovesRun(first, sw, seed);
    TimeoutNotUndone(first, sw, taskId, seed);
    TimeoutDelivers(TimeoutOf(first, sw, seed), older, sw, taskId, seed);
  }

  lemma TimeoutUnspent(db: Db, sw: Sweeping, taskId: string, seed: nat)
    requires Unspent(db, seed) && sw.nextId !in db.runs && sw.runId in db.runs && taskId == db.runs[sw.runId].taskId
    ensures TimeoutStands(db, sw, taskId, seed)
  {
  }

  // ------------------------------------------------------------------------------------------
  // `sweep:lost-launch`.

  function LaunchClosing(seed: nat): Closing {
    Closing(Failed, false, true, By(seed, "cap"))
  }

  predicate LaunchLost(db: Db, sw: Sweeping) {
    StillSwept(db, sw) && db.runs[sw.runId].activatedGen < sw.gen
  }

  /** `reopen`, below the cap. It asks for a live owner, and the cap does not. */
  function RunReopened(db: Db, sw: Sweeping, seed: nat): map<string, Run> {
    if LaunchLost(db, sw) && db.runs[sw.runId].relaunches < RELAUNCH_CAP && db.tasks[db.runs[sw.runId].taskId].state.Live()
    then
      var run := db.runs[sw.runId];
      db.runs[sw.runId := Unclaimed(run).(state := Pending, relaunches := run.relaunches + 1,
                                          availableAt := Some(db.now + RelaunchBackoffMs(run.relaunches)),
                                          stamp := By(seed, "reopen"))]
    else db.runs
  }

  /** `cap`. */
  function RunCapped(db: Db, sw: Sweeping, seed: nat): map<string, Run> {
    if LaunchLost(db, sw) && db.runs[sw.runId].relaunches == RELAUNCH_CAP
    then db.runs[sw.runId := Close(db.runs[sw.runId], LaunchClosing(seed))] else db.runs
  }

  /** `task-pending`: the task of the run under the fence of `reopen`. */
  function TaskReopened(db: Db, sw: Sweeping, seed: nat): map<string, Task> {
    if Stamped(db, sw.runId, By(seed, "reopen")) && Owns(db, db.runs[sw.runId])
       && db.tasks[db.runs[sw.runId].taskId].state.Live()
    then db.tasks[db.runs[sw.runId].taskId :=
                    db.tasks[db.runs[sw.runId].taskId].(state := Pending, stamp := By(seed, "task-pending"))]
    else db.tasks
  }

  function LaunchRows(db: Db, sw: Sweeping, seed: nat): Db {
    var pending := db.(runs := RunReopened(db, sw, seed));
    var capped := pending.(runs := RunCapped(pending, sw, seed));
    var passed := SagaArm(capped, AtCapOf(sw, REASON_RELAUNCH_CAP), By(seed, "cap"), seed);
    var reopened := passed.(tasks := TaskReopened(passed, sw, seed));
    var ended := reopened.(tasks := TaskCapped(reopened, sw, REASON_RELAUNCH_CAP, By(seed, "cap"), By(seed, "task-fail")));
    ended.(waits := WaitsGone(ended, sw.runId, By(seed, "cap")))
  }

  function LaunchStatements(db: Db, sw: Sweeping, taskId: string, seed: nat): Db {
    Tail(LaunchRows(db, sw, seed), sw.queue, taskId, By(seed, "task-fail"),
         Outcome(Failed, None, Some(REASON_RELAUNCH_CAP)), seed)
  }

  function LaunchOf(db: Db, sw: Sweeping, seed: nat): Db {
    SweepLostLaunch(db, sw.queue, sw.runId, sw.gen, sw.nextId, seed)
  }

  /** The run it reopened, and while that run bears its stamp, the task as the sweep left it. */
  ghost predicate ReopenStands(db: Db, sw: Sweeping, seed: nat) {
    Stamped(db, sw.runId, By(seed, "reopen")) ==>
      && db.runs[sw.runId].state == Pending && db.runs[sw.runId].taskId in db.tasks
      && var task := db.tasks[db.runs[sw.runId].taskId];
      && task.state == Pending && task.stamp == By(seed, "task-pending")
  }

  ghost predicate LaunchStands(db: Db, sw: Sweeping, taskId: string, seed: nat) {
    && CapStands(db, sw, taskId, REASON_RELAUNCH_CAP, By(seed, "cap"), By(seed, "task-fail"), seed)
    && ReopenStands(db, sw, seed)
  }

  lemma ReopenWins(db: Db, sw: Sweeping, seed: nat)
    requires Swept(db, sw.queue, sw.runId, sw.gen) && db.runs[sw.runId].activatedGen < sw.gen && sw.nextId !in db.runs
    requires db.runs[sw.runId].relaunches < RELAUNCH_CAP
    ensures LaunchRows(db, sw, seed) == LaunchOf(db, sw, seed)
  {
    var reopened := db.(runs := RunReopened(db, sw, seed));
    assert RunCapped(reopened, sw, seed) == reopened.runs;
    assert SagaArm(reopened, AtCapOf(sw, REASON_RELAUNCH_CAP), By(seed, "cap"), seed) == reopened;
  }

  /** The run at the cap is all that closing its task's runs closes. */
  ghost predicate LaunchClosesOne(db: Db, failed: Db, sw: Sweeping, seed: nat)
    requires sw.runId in db.runs
  {
    var closed := CloseRuns(db, db.runs[sw.runId].taskId, LaunchClosing(seed));
    && JustClosed(db, failed, AtCapOf(sw, REASON_RELAUNCH_CAP), LaunchClosing(seed))
    && RunReopened(db, sw, seed) == db.runs && failed == db.(runs := RunCapped(db, sw, seed))
    && closed.runs == failed.runs && closed.waits == (map key | key in db.waits && key.0 != sw.runId :: db.waits[key])
  }

  lemma LaunchCloses(db: Db, older: set<string>, sw: Sweeping, seed: nat)
    requires Inv(db, older) && Swept(db, sw.queue, sw.runId, sw.gen) && db.runs[sw.runId].activatedGen < sw.gen
    requires sw.nextId !in db.runs && db.runs[sw.runId].relaunches == RELAUNCH_CAP
    ensures LaunchClosesOne(db, db.(runs := RunCapped(db, sw, seed)), sw, seed)
  {
    OneRunCloses(db, older, sw.runId, LaunchClosing(seed));
  }

  lemma LaunchRowsRollBack(db: Db, failed: Db, sw: Sweeping, seed: nat)
    requires sw.runId in db.runs && LaunchClosesOne(db, failed, sw, seed)
    requires EntersSaga(db.tasks[db.runs[sw.runId].taskId])
    ensures LaunchRows(db, sw, seed)
         == AtCap(db, sw.runId, sw.nextId, REASON_RELAUNCH_CAP, LaunchClosing(seed), By(seed, "task-fail"), seed)
  {
    hide SagaArm, RunReopened, RunCapped;
    SagaArmPlaces(db, failed, AtCapOf(sw, REASON_RELAUNCH_CAP), LaunchClosing(seed), seed);
  }

  lemma LaunchRowsEnd(db: Db, failed: Db, sw: Sweeping, seed: nat)
    requires sw.runId in db.runs && LaunchClosesOne(db, failed, sw, seed)
    requires !EntersSaga(db.tasks[db.runs[sw.runId].taskId])
    ensures var taskId := db.runs[sw.runId].taskId;
      LaunchRows(db, sw, seed)
      == Ended(db, taskId, db.tasks[taskId].(state := Failed, reason := Some(REASON_RELAUNCH_CAP), stamp := By(seed, "task-fail")),
               LaunchClosing(seed))
  {
    hide SagaArm, RunReopened, RunCapped;
    NoSagaArm(db, failed, AtCapOf(sw, REASON_RELAUNCH_CAP), LaunchClosing(seed), seed);
  }

  /** A delivery that finds the claim still there is the sweep's one atomic step. */
  lemma LaunchWins(db: Db, older: set<string>, sw: Sweeping, taskId: string, seed: nat)
    requires Inv(db, older) && NoneHalfWoken(db, seed) && Untold(db, sw.queue, taskId, seed)
    requires Swept(db, sw.queue, sw.runId, sw.gen) && db.runs[sw.runId].activatedGen < sw.gen
    requires sw.nextId !in db.runs && taskId == db.runs[sw.runId].taskId
    ensures LaunchStatements(db, sw, taskId, seed) == LaunchOf(db, sw, seed)
  {
    hide LaunchRows, RunCapped, Tail, Wake, RunReopened, SagaArm, RelaunchBackoffMs, Awaited, Manned,
         Numbered, Settled, Mirrored;
    var failed := db.(runs := RunCapped(db, sw, seed));
    assert TaskFits(db.tasks[taskId]);
    if db.runs[sw.runId].relaunches < RELAUNCH_CAP {
      ReopenWins(db, sw, seed);
    } else {
      assert db.runs[sw.runId].relaunches == RELAUNCH_CAP;
      LaunchCloses(db, older, sw, seed);
      if EntersSaga(db.tasks[taskId]) {
        LaunchRowsRollBack(db, failed, sw, seed);
      } else {
        LaunchRowsEnd(db, failed, sw, seed);
      }
    }
    TailTells(LaunchRows(db, sw, seed), sw.queue, taskId, By(seed, "task-fail"),
              Outcome(Failed, None, Some(REASON_RELAUNCH_CAP)), seed);
  }

  lemma LaunchRowsStay(db: Db, older: set<string>, sw: Sweeping, taskId: string, seed: nat)
    requires Inv(db, older) && LaunchStands(db, sw, taskId, seed) && Stamped(db, sw.runId, By(seed, "cap"))
    requires !CapUndone(db, sw, taskId, By(seed, "cap"))
    ensures LaunchRows(db, sw, seed) == db
  {
    NoWaitToReap(db, older, sw.runId, By(seed, "cap"));
    assert RunReopened(db, sw, seed) == db.runs && RunCapped(db, sw, seed) == db.runs;
    SagaArmYields(db, AtCapOf(sw, REASON_RELAUNCH_CAP), By(seed, "cap"), seed);
    assert TaskReopened(db, sw, seed) == db.tasks;
  }

  lemma LaunchRowsChange(db: Db, sw: Sweeping, taskId: string, seed: nat)
    requires LaunchStands(db, sw, taskId, seed) && CapUndone(db, sw, taskId, By(seed, "cap"))
    requires Owns(db, db.runs[sw.runId])
    ensures var after := LaunchStatements(db, sw, taskId, seed);
      taskId in after.tasks && (after.tasks[taskId].state == Failed || sw.nextId in after.runs)
  {
    var rows := LaunchRows(db, sw, seed);
    assert RunReopened(db, sw, seed) == db.runs && RunCapped(db, sw, seed) == db.runs;
    assert taskId in rows.tasks && (rows.tasks[taskId].state == Failed || sw.nextId in rows.runs);
  }

  /** A delivery that wins nothing finds at most the run it reopened. */
  lemma LaunchLoses(db: Db, sw: Sweeping, seed: nat)
    requires RunReopened(db, sw, seed) == db.runs && RunCapped(db, sw, seed) == db.runs && ReopenStands(db, sw, seed)
    requires !Stamped(db, sw.runId, By(seed, "cap")) && sw.nextId !in db.runs
    ensures LaunchRows(db, sw, seed) == db
  {
    assert SagaArm(db, AtCapOf(sw, REASON_RELAUNCH_CAP), By(seed, "cap"), seed) == db;
    assert TaskReopened(db, sw, seed) == db.tasks;
  }

  /** As for a claim's timeout, for a launch that was lost. */
  lemma LaunchDelivers(db: Db, older: set<string>, sw: Sweeping, taskId: string, seed: nat)
    requires Inv(db, older) && sw.runId in db.runs && LaunchStands(db, sw, taskId, seed)
    ensures LaunchStatements(db, sw, taskId, seed) == LaunchOf(db, sw, seed)
       <==> !CapUndone(db, sw, taskId, By(seed, "cap"))
  {
    SweptWhenRunning(db, older, sw);
    if CapUndone(db, sw, taskId, By(seed, "cap")) {
      LaunchRowsChange(db, sw, taskId, seed);
    } else if Swept(db, sw.queue, sw.runId, sw.gen) && db.runs[sw.runId].activatedGen < sw.gen {
      LaunchWins(db, older, sw, taskId, seed);
    } else {
      if Stamped(db, sw.runId, By(seed, "cap")) {
        LaunchRowsStay(db, older, sw, taskId, seed);
      } else {
        LaunchLoses(db, sw, seed);
      }
      TailAgain(db, older, sw.queue, taskId, By(seed, "task-fail"), Outcome(Failed, None, Some(REASON_RELAUNCH_CAP)), seed);
    }
  }

  lemma ReopenLeaves(db: Db, sw: Sweeping, taskId: string, seed: nat)
    requires Swept(db, sw.queue, sw.runId, sw.gen) && db.runs[sw.runId].activatedGen < sw.gen && sw.nextId !in db.runs
    requires LaunchStands(db, sw, taskId, seed) && db.runs[sw.runId].relaunches < RELAUNCH_CAP
    ensures LaunchStands(LaunchOf(db, sw, seed), sw, taskId, seed)
  {
  }

  lemma CapReopensNothing(db: Db, sw: Sweeping, reason: string, how: Closing, terminal: Stamp, seed: nat)
    requires sw.runId in db.runs && Owns(db, db.runs[sw.runId]) && sw.nextId !in db.runs && how.stamp != By(seed, "reopen")
    requires db.runs[sw.runId].state.Live()
    ensures !Stamped(AtCap(db, sw.runId, sw.nextId, reason, how, terminal, seed), sw.runId, By(seed, "reopen"))
  {
  }

  lemma LaunchLeaves(db: Db, older: set<string>, sw: Sweeping, taskId: string, seed: nat)
    requires Inv(db, older) && sw.runId in db.runs && LaunchStands(db, sw, taskId, seed)
    ensures LaunchStands(LaunchOf(db, sw, seed), sw, taskId, seed)
  {
    hide CapStands, AtCap;
    if Swept(db, sw.queue, sw.runId, sw.gen) && db.runs[sw.runId].activatedGen < sw.gen && sw.nextId !in db.runs {
      if db.runs[sw.runId].relaunches < RELAUNCH_CAP {
        ReopenLeaves(db, sw, taskId, seed);
      } else {
        assert RunFits(db.runs[sw.runId]);
        CapLeaves(db, older, sw, taskId, REASON_RELAUNCH_CAP, LaunchClosing(seed), By(seed, "task-fail"), seed);
        CapReopensNothing(db, sw, REASON_RELAUNCH_CAP, LaunchClosing(seed), By(seed, "task-fail"), seed);
      }
    }
  }

  lemma LaunchStandsOn(db: Db, after: Db, sw: Sweeping, taskId: string, seed: nat)
    requires sw.runId in db.runs && LaunchStands(db, sw, taskId, seed) && Follows(db, after, seed)
    requires sw.nextId in after.runs ==> sw.nextId in db.runs
    ensures LaunchStands(after, sw, taskId, seed)
  {
    CapStandsOn(db, after, sw, taskId, REASON_RELAUNCH_CAP, By(seed, "cap"), By(seed, "task-fail"), seed);
  }

  lemma LaunchMovesRun(first: Db, sw: Sweeping, seed: nat)
    requires sw.runId in first.runs
    ensures sw.runId in LaunchOf(first, sw, seed).runs
    ensures LaunchOf(first, sw, seed) == first || LaunchOf(first, sw, seed).runs[sw.runId].state != Running
  {
    hide Current, AtCap, RelaunchBackoffMs;
    if Swept(first, sw.queue, sw.runId, sw.gen) && sw.nextId !in first.runs {
      SweptIsOwned(first, sw.queue, sw.runId, sw.gen);
      AtCapCloses(first, sw.runId, sw.nextId, REASON_RELAUNCH_CAP, LaunchClosing(seed), By(seed, "task-fail"), seed);
    }
  }

  lemma LaunchSweptOnce(first: Db, sw: Sweeping, seed: nat)
    requires sw.runId in first.runs
    ensures LaunchOf(LaunchOf(first, sw, seed), sw, seed) == LaunchOf(first, sw, seed)
  {
    hide Current, AtCap;
    LaunchMovesRun(first, sw, seed);
  }

  lemma LaunchNotUndone(first: Db, sw: Sweeping, taskId: string, seed: nat)
    requires Unspent(first, seed) && sw.runId in first.runs && taskId == first.runs[sw.runId].taskId
    ensures !CapUndone(LaunchOf(first, sw, seed), sw, taskId, By(seed, "cap"))
  {
    hide Current, RelaunchBackoffMs, AtCap;
    if Swept(first, sw.queue, sw.runId, sw.gen) {
      SweptIsOwned(first, sw.queue, sw.runId, sw.gen);
      CapNotUndone(first, sw, taskId, REASON_RELAUNCH_CAP, LaunchClosing(seed), By(seed, "task-fail"), By(seed, "cap"), seed);
    }
  }

  lemma LaunchUnspent(db: Db, sw: Sweeping, taskId: string, seed: nat)
    requires Unspent(db, seed) && sw.nextId !in db.runs && sw.runId in db.runs && taskId == db.runs[sw.runId].taskId
    ensures LaunchStands(db, sw, taskId, seed)
  {
  }

  lemma LaunchAgain(first: Db, older: set<string>, sw: Sweeping, taskId: string, seed: nat)
    requires Inv(first, older) && Unspent(first, seed) && sw.nextId !in first.runs
    requires sw.runId in first.runs && taskId == first.runs[sw.runId].taskId
    ensures LaunchStatements(LaunchOf(first, sw, seed), sw, taskId, seed) == LaunchOf(first, sw, seed)
  {
    hide CapStands, ReopenStands, CapUndone, SweepLostLaunch;
    LaunchUnspent(first, sw, taskId, seed);
    LostLaunchKeeps(first, older, sw.queue, sw.runId, sw.gen, sw.nextId, seed);
    LaunchLeaves(first, older, sw, taskId, seed);
    LaunchSweptOnce(first, sw, seed);
    LaunchMovesRun(first, sw, seed);
    LaunchNotUndone(first, sw, taskId, seed);
    LaunchDelivers(LaunchOf(first, sw, seed), older, sw, taskId, seed);
  }
}
