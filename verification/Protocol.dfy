/**
 * Every labelled batch as one atomic step over the tables. A refused batch changes nothing.
 *
 * `seed` is the invocation's own, and a step stamps each row it writes with the last
 * statement of its batch that writes the row.
 */
module Protocol {
  import opened Options
  import opened Tables

  // ------------------------------------------------------------------------------------------
  // What the batches share.

  /** How a batch ends a run. */
  datatype Closing = Closing(state: State, clearsWake: bool, clearsLease: bool, stamp: Stamp)

  function Close(run: Run, how: Closing): Run {
    var closed := run.(state := how.state, claimedBy := None,
                       expiresAt := if how.clearsLease then None else run.expiresAt, stamp := how.stamp);
    if how.clearsWake then closed.(wakeEvent := None, wakeStep := None, eventPayload := None) else closed
  }

  /** The task's live run ends, and its waits go with it. */
  function CloseRuns(db: Db, taskId: string, how: Closing): Db {
    db.(runs := map id | id in db.runs ::
          if LiveRunOf(db, id, taskId) then Close(db.runs[id], how) else db.runs[id],
        waits := map key | key in db.waits && !LiveRunOf(db, key.0, taskId) :: db.waits[key])
  }

  /** The run sleeps on this event of this queue, and its own wait answers for the step it parked on. */
  predicate ParkedOn(db: Db, id: string, queue: string, name: EventName) {
    && id in db.runs
    && var run := db.runs[id];
    && run.queue == queue && run.state == Sleeping
    && run.wakeEvent == Some(name) && run.wakeStep.Some?
    && (id, run.wakeStep.value) in db.waits
    && var wait := db.waits[(id, run.wakeStep.value)];
    && wait.queue == queue && wait.event == name && wait.taskId == run.taskId && wait.timeoutAt == run.availableAt
    && Owns(db, run) && db.tasks[run.taskId].state.Live()
  }

  function Woken(db: Db, queue: string, name: EventName): set<string> {
    set id | id in db.runs && ParkedOn(db, id, queue, name)
  }

  /** Every run parked on the stored event turns pending with the stored payload, and its wait goes. */
  function Wake(db: Db, queue: string, name: EventName, seed: nat): Db
    requires (queue, name) in db.events
  {
    var event := db.events[(queue, name)];
    var woken := Woken(db, queue, name);
    var owners := set id | id in woken :: db.runs[id].taskId;
    db.(runs := map id | id in db.runs ::
          if id in woken
          then db.runs[id].(state := Pending, availableAt := Some(event.emittedAt),
                            eventPayload := Some(event.payload), stamp := By(seed, "wake-finished"))
          else db.runs[id],
        tasks := map id | id in db.tasks ::
          if id in owners then db.tasks[id].(state := Pending, stamp := By(seed, "wake-tasks")) else db.tasks[id],
        waits := map key | key in db.waits && !(key.0 in woken && db.waits[key].event == name) :: db.waits[key])
  }

  /** The completion event and its wake. An event that exists is left alone, and so is everyone. */
  function Announce(db: Db, queue: string, taskId: string, outcome: Outcome, seed: nat): Db {
    var key := (queue, TaskDone(taskId));
    if key in db.events then db
    else Wake(db.(events := db.events[key := Event(Encoded(outcome), db.now, By(seed, "task-done"))]),
              queue, TaskDone(taskId), seed)
  }

  /** The task ends as `ended`, its live run closes, and whoever waits for it is told. */
  function EndTask(db: Db, taskId: string, ended: Task, how: Closing, seed: nat): Db {
    var closed := CloseRuns(db, taskId, how);
    Announce(closed.(tasks := closed.tasks[taskId := ended]), ended.queue, taskId, OutcomeOf(ended), seed)
  }

  /** The live run closes, and the next run of the task takes its place. */
  function Succeed(db: Db, taskId: string, next: Task, how: Closing, id: string, successor: Run): Db {
    var closed := CloseRuns(db, taskId, how);
    closed.(tasks := closed.tasks[taskId := next], runs := closed.runs[id := successor])
  }

  /** The next attempt of a task, carrying the parked wake of the run it follows. */
  function Successor(run: Run, state: State, availableAt: int, stamp: Stamp): Run {
    Run(run.taskId, run.queue, run.attempt + 1, state, Some(availableAt),
        run.wakeEvent, run.wakeStep, run.eventPayload, None, 0, 0, 0, 0, None, stamp)
  }

  /** A run that gives up its claim. Its task follows it, and no wait of it is left. */
  function Park(db: Db, id: string, parked: Run, stamp: Stamp): Db
    requires id in db.runs && Owns(db, db.runs[id])
  {
    var taskId := db.runs[id].taskId;
    db.(runs := db.runs[id := parked],
        tasks := db.tasks[taskId := db.tasks[taskId].(state := parked.state, stamp := stamp)],
        waits := map key | key in db.waits && key.0 != id :: db.waits[key])
  }

  function Unclaimed(run: Run): Run {
    run.(claimedBy := None, expiresAt := None)
  }

  function NoWake(run: Run): Run {
    run.(wakeEvent := None, wakeStep := None, eventPayload := None)
  }

  function UserAttempts(run: Run, task: Task): nat {
    if run.attempt >= task.infraRetries then run.attempt - task.infraRetries else 0
  }

  /** A terminal failure is owed a saga first: a registered step is owed its rollback, and no saga began. */
  predicate EntersSaga(task: Task) {
    task.rollbackOwed && task.saga.None?
  }

  /** The task as a rollback pass leaves it: charged for the failed run, with room for the pass alone. */
  function RollingBack(task: Task, run: Run, state: State, seed: nat): Task {
    task.(attempts := UserAttempts(run, task), maxAttempts := UserAttempts(run, task) + 1, state := state,
          stamp := By(seed, "task-rolling-back"))
  }

  function Later(db: Db, ms: nat): Db {
    db.(now := db.now + ms)
  }

  // ------------------------------------------------------------------------------------------
  // spawn, claim, activate, and the lease.

  datatype Parent = Parent(queue: string, runId: string, taskId: string, token: string)

  /** The parent's claim admits a child: it is live, and no saga of the parent began. */
  predicate MaySpawn(db: Db, parent: Parent) {
    && Claimed(db, parent.queue, parent.runId, parent.token)
    && db.runs[parent.runId].taskId == parent.taskId
    && db.tasks[parent.taskId].state.Live() && db.tasks[parent.taskId].saga.None?
  }

  predicate KeyTaken(db: Db, queue: string, key: Option<string>) {
    key.Some? && exists id :: id in db.tasks && db.tasks[id].queue == queue && db.tasks[id].key == key
  }

  datatype Spawning = Spawning(queue: string, taskId: string, runId: string, key: Option<string>, maxAttempts: nat,
                               delayMs: nat, maxDelayMs: Option<nat>, maxDurationMs: Option<nat>,
                               parent: Option<Parent>)

  predicate SpawnAdmits(db: Db, s: Spawning) {
    && s.maxAttempts > 0
    && s.taskId !in db.tasks && s.runId !in db.runs && !KeyTaken(db, s.queue, s.key)
    && (s.parent.Some? ==> MaySpawn(db, s.parent.value))
  }

  /** `spawn`: a pending task and its first run. */
  function Spawn(db: Db, s: Spawning, seed: nat): Db {
    if !SpawnAdmits(db, s) then db
    else
      var due := db.now + s.delayMs;
      var cancelAt := if s.maxDelayMs.Some? then Some(due + s.maxDelayMs.value) else None;
      db.(tasks := db.tasks[s.taskId := Task(s.queue, s.key, Pending, 0, s.maxAttempts, 0, cancelAt, s.maxDurationMs,
                                             None, None, None, false, None, By(seed, "task"))],
          runs := db.runs[s.runId := Run(s.taskId, s.queue, 1, Pending, Some(due), None, None, None,
                                         None, 0, 0, 0, 0, None, By(seed, "run"))])
  }

  /** The runs of a queue a token holds. */
  function Held(db: Db, queue: string, token: string): set<string> {
    set id | id in db.runs && db.runs[id].queue == queue && db.runs[id].state == Running
             && db.runs[id].claimedBy == Some(token)
  }

  predicate Claimable(db: Db, queue: string, id: string) {
    && id in db.runs
    && db.runs[id].queue == queue
    && (db.runs[id].state == Pending || db.runs[id].state == Sleeping)
    && db.runs[id].availableAt.Some? && db.runs[id].availableAt.value <= db.now
    && Current(db, id)
    && Eligible(db.tasks[db.runs[id].taskId], db.now)
    && db.runs[id].activatedGen <= db.runs[id].claimGen
  }

  /** A claim takes at most its limit, of the runs that are due, under a token that holds none. */
  predicate ClaimAdmits(db: Db, queue: string, token: string, leaseMs: nat, limit: nat, picked: set<string>) {
    && leaseMs > 0
    && |picked| <= limit
    && Held(db, queue, token) == {}
    && forall id :: id in picked ==> Claimable(db, queue, id)
  }

  /** `claim`. A wait that came due goes with the claim that finds it. */
  function Claim(db: Db, queue: string, token: string, leaseMs: nat, limit: nat, picked: set<string>, seed: nat): Db {
    if !ClaimAdmits(db, queue, token, leaseMs, limit, picked) then db
    else
      var owners := set id | id in picked && id in db.runs :: db.runs[id].taskId;
      db.(runs := map id | id in db.runs ::
            if id in picked
            then db.runs[id].(state := Running, claimedBy := Some(token), claimGen := db.runs[id].claimGen + 1,
                              leaseMs := leaseMs, expiresAt := Some(db.now + leaseMs), stamp := By(seed, "claim"))
            else db.runs[id],
          tasks := map id | id in db.tasks ::
            if id in owners then db.tasks[id].(state := Running, stamp := By(seed, "task-book")) else db.tasks[id],
          waits := map key | key in db.waits
                             && !(key.0 in picked && db.waits[key].timeoutAt.Some?
                                  && db.waits[key].timeoutAt.value <= db.now)
                   :: db.waits[key])
  }

  /** The claim receipt activation and the launch deferral act on. */
  predicate Receipt(db: Db, queue: string, id: string, token: string, gen: nat) {
    && Claimed(db, queue, id, token)
    && db.runs[id].claimGen == gen && db.runs[id].activatedGen < gen
    && Current(db, id)
    && Eligible(db.tasks[db.runs[id].taskId], db.now)
  }

  /** `activate`: the first delivery of a claim starts it, and the first start of all fixes the deadline. */
  function Activate(db: Db, queue: string, id: string, token: string, gen: nat, seed: nat): Db {
    if !Receipt(db, queue, id, token, gen) then db
    else
      var run := db.runs[id];
      var task := db.tasks[run.taskId];
      var started := if task.firstStartedAt.Some? then task.firstStartedAt.value else db.now;
      var deadline := if task.maxDurationMs.Some? then Some(started + task.maxDurationMs.value) else None;
      db.(runs := db.runs[id := run.(activatedGen := gen, expiresAt := Some(db.now + run.leaseMs),
                                     stamp := By(seed, "activate"))],
          tasks := db.tasks[run.taskId := task.(firstStartedAt := Some(started), cancelAt := deadline,
                                                stamp := By(seed, "task-start"))])
  }

  predicate LiveClaim(db: Db, queue: string, id: string, token: string) {
    Claimed(db, queue, id, token) && db.tasks[db.runs[id].taskId].state.Live()
  }

  /** `heartbeat`. */
  function Heartbeat(db: Db, queue: string, id: string, token: string, extendMs: nat, seed: nat): Db {
    if !LiveClaim(db, queue, id, token) then db
    else db.(runs := db.runs[id := db.runs[id].(expiresAt := Some(db.now + extendMs), stamp := By(seed, "extend"))])
  }

  /** `expire-lease-now`: only ever shortens a lease. */
  function ExpireLeaseNow(db: Db, queue: string, id: string, token: string): Db {
    if !Claimed(db, queue, id, token) || Expired(db.runs[id], db.now) || db.runs[id].expiresAt.None? then db
    else db.(runs := db.runs[id := db.runs[id].(expiresAt := Some(db.now))])
  }

  /** `set-checkpoint`: extends the lease, and leaves a rollback owed or not. */
  function SetCheckpoint(db: Db, queue: string, id: string, token: string, extendMs: nat, owed: bool, seed: nat): Db {
    if !LiveClaim(db, queue, id, token) then db
    else
      var taskId := db.runs[id].taskId;
      db.(runs := db.runs[id := db.runs[id].(expiresAt := Some(db.now + extendMs), stamp := By(seed, "lease"))],
          tasks := db.tasks[taskId := db.tasks[taskId].(rollbackOwed := owed)])
  }

  // ------------------------------------------------------------------------------------------
  // Suspensions.

  function Due(wakeAt: int, now: int): State {
    if wakeAt <= now then Pending else Sleeping
  }

  predicate MayPark(db: Db, queue: string, id: string, token: string) {
    Claimed(db, queue, id, token) && Eligible(db.tasks[db.runs[id].taskId], db.now)
  }

  /** `reschedule`, and `suspend` when it commits a marker, which a saga freezes. */
  function Suspend(db: Db, queue: string, id: string, token: string, wakeAt: int, marker: bool, seed: nat): Db {
    if !MayPark(db, queue, id, token) || (marker && db.tasks[db.runs[id].taskId].saga.Some?) then db
    else Park(db, id, NoWake(Unclaimed(db.runs[id])).(state := Due(wakeAt, db.now), availableAt := Some(wakeAt),
                                                      stamp := By(seed, "suspend")), By(seed, "task-mirror"))
  }

  /** `defer-launch`: parks a claim no launch activated, and keeps the wake it carries. */
  function DeferLaunch(db: Db, queue: string, id: string, token: string, gen: nat, wakeAt: int, seed: nat): Db {
    if !Receipt(db, queue, id, token, gen) then db
    else Park(db, id, Unclaimed(db.runs[id]).(state := Due(wakeAt, db.now), availableAt := Some(wakeAt),
                                              stamp := By(seed, "suspend")), By(seed, "task-mirror"))
  }

  // ------------------------------------------------------------------------------------------
  // Endings.

  /** `complete`. A task that is rolling back cannot. */
  predicate CompleteAdmits(db: Db, queue: string, id: string, token: string) {
    LiveClaim(db, queue, id, token) && SoleLive(db, id) && db.tasks[db.runs[id].taskId].saga.None?
  }

  function Complete(db: Db, queue: string, id: string, token: string, result: string, seed: nat): Db {
    if !CompleteAdmits(db, queue, id, token) then db
    else
      var task := db.tasks[db.runs[id].taskId];
      EndTask(db, db.runs[id].taskId,
              task.(state := Completed, result := Some(result), cancelAt := None, stamp := By(seed, "task")),
              Closing(Completed, true, true, By(seed, "complete")), seed)
  }

  /** `fail`, or `fail-rollback` for a failed rollback, which only a task that is rolling back has. */
  datatype Failure = Failure(queue: string, runId: string, token: string, reason: string, retryMs: Option<nat>,
                             nextId: string, rollback: bool)

  predicate FailAdmits(db: Db, f: Failure) {
    && LiveClaim(db, f.queue, f.runId, f.token) && Current(db, f.runId)
    && (f.rollback ==> db.tasks[db.runs[f.runId].taskId].saga.Some?)
    && f.nextId !in db.runs
  }

  /** What follows a failure: the user's retry, a rollback pass, or the end of the task. */
  datatype Verdict = Retries | RollsBack(enters: bool) | EndsTask

  function AfterFailure(task: Task, run: Run, f: Failure): Verdict {
    if f.rollback then if f.retryMs.Some? then RollsBack(false) else EndsTask
    else if f.retryMs.Some? && UserAttempts(run, task) < task.maxAttempts then Retries
    else if EntersSaga(task) then RollsBack(true)
    else EndsTask
  }

  function FailDelay(f: Failure): nat {
    if f.retryMs.Some? then f.retryMs.value else 0
  }

  function FailClosing(seed: nat): Closing {
    Closing(Failed, false, true, By(seed, "fail"))
  }

  /** The user's retry. */
  function FailRetries(db: Db, f: Failure, seed: nat): Db
    requires f.runId in db.runs && Owns(db, db.runs[f.runId])
  {
    var run := db.runs[f.runId];
    var task := db.tasks[run.taskId];
    var state := if FailDelay(f) == 0 then Pending else Sleeping;
    Succeed(db, run.taskId,
            task.(attempts := UserAttempts(run, task), state := state, stamp := By(seed, "task-retrying")),
            FailClosing(seed), f.nextId, Successor(run, state, db.now + FailDelay(f), By(seed, "successor")))
  }

  /** A rollback pass: the saga's first, or the retry of a failed rollback. */
  function FailRollsBack(db: Db, f: Failure, enters: bool, seed: nat): Db
    requires f.runId in db.runs && Owns(db, db.runs[f.runId])
  {
    var run := db.runs[f.runId];
    var task := db.tasks[run.taskId];
    var delay := if enters then 0 else FailDelay(f);
    var state := if delay == 0 then Pending else Sleeping;
    Succeed(db, run.taskId,
            RollingBack(task.(saga := if enters then Some(f.reason) else task.saga), run, state, seed),
            FailClosing(seed), f.nextId, Successor(run, state, db.now + delay, By(seed, "rollback-pass")))
  }

  function FailEnds(db: Db, f: Failure, seed: nat): Db
    requires f.runId in db.runs && Owns(db, db.runs[f.runId])
  {
    var run := db.runs[f.runId];
    var task := db.tasks[run.taskId];
    EndTask(db, run.taskId,
            task.(attempts := UserAttempts(run, task), state := Failed, reason := Some(f.reason),
                  stamp := By(seed, if f.retryMs.Some? && !f.rollback then "task-terminal" else "task")),
            FailClosing(seed), seed)
  }

  function Fail(db: Db, f: Failure, seed: nat): Db {
    if !FailAdmits(db, f) then db
    else
      match AfterFailure(db.tasks[db.runs[f.runId].taskId], db.runs[f.runId], f)
      case Retries => FailRetries(db, f, seed)
      case RollsBack(enters) => FailRollsBack(db, f, enters, seed)
      case EndsTask => FailEnds(db, f, seed)
  }

  /** A claim a sweep found expired, under the generation its scan read. */
  predicate Swept(db: Db, queue: string, id: string, gen: nat) {
    && id in db.runs
    && db.runs[id].queue == queue && db.runs[id].state == Running && db.runs[id].claimGen == gen
    && Expired(db.runs[id], db.now)
    && Current(db, id) && db.tasks[db.runs[id].taskId].state.Live()
  }

  function RelaunchBackoffMs(relaunches: nat): nat {
    (if (relaunches + 1) * 5 < 60 then (relaunches + 1) * 5 else 60) * 1000
  }

  /** The saga a cap enters, or the end of the task, which a cap does not charge for the run. */
  function AtCap(db: Db, id: string, passId: string, reason: string, how: Closing, terminal: Stamp, seed: nat): Db
    requires id in db.runs && Owns(db, db.runs[id])
  {
    var run := db.runs[id];
    var task := db.tasks[run.taskId];
    if EntersSaga(task) then
      Succeed(db, run.taskId, RollingBack(task.(saga := Some(reason)), run, Pending, seed), how, passId,
              Successor(run, Pending, db.now, By(seed, "rollback-pass")))
    else
      EndTask(db, run.taskId, task.(state := Failed, reason := Some(reason), stamp := terminal), how, seed)
  }

  /** `sweep:lost-launch`: below the cap the same run goes back to pending, at it the task fails. */
  function SweepLostLaunch(db: Db, queue: string, id: string, gen: nat, passId: string, seed: nat): Db {
    if !Swept(db, queue, id, gen) || db.runs[id].activatedGen >= gen || passId in db.runs then db
    else
      var run := db.runs[id];
      if run.relaunches < RELAUNCH_CAP then
        db.(runs := db.runs[id := Unclaimed(run).(state := Pending, relaunches := run.relaunches + 1,
                                                  availableAt := Some(db.now + RelaunchBackoffMs(run.relaunches)),
                                                  stamp := By(seed, "reopen"))],
            tasks := db.tasks[run.taskId := db.tasks[run.taskId].(state := Pending, stamp := By(seed, "task-pending"))])
      else if run.relaunches == RELAUNCH_CAP then
        AtCap(db, id, passId, REASON_RELAUNCH_CAP, Closing(Failed, false, true, By(seed, "cap")),
              By(seed, "task-fail"), seed)
      else db
  }

  /** The infrastructure retry of a run whose claim timed out. */
  function TimeoutRetries(db: Db, id: string, nextId: string, how: Closing, seed: nat): Db
    requires id in db.runs && Owns(db, db.runs[id]) && Accounted(db.runs[id], db.tasks[db.runs[id].taskId])
  {
    var run := db.runs[id];
    var task := db.tasks[run.taskId];
    Succeed(db, run.taskId,
            task.(infraRetries := run.attempt - task.attempts, state := Pending, stamp := By(seed, "bookkeeping")),
            how, nextId, Successor(run, Pending, db.now + INFRA_BACKOFF_MS, By(seed, "successor")))
  }

  /** `sweep:claim-timeout`: below the cap an infrastructure retry follows, at it the task fails. */
  function SweepClaimTimeout(db: Db, queue: string, id: string, gen: nat, nextId: string, seed: nat): Db {
    if !Swept(db, queue, id, gen) || db.runs[id].activatedGen != gen || nextId in db.runs then db
    else
      var how := Closing(Failed, false, false, By(seed, "fail"));
      var retries := db.tasks[db.runs[id].taskId].infraRetries;
      if retries < INFRA_RETRY_CAP then TimeoutRetries(db, id, nextId, how, seed)
      else if retries == INFRA_RETRY_CAP then
        AtCap(db, id, nextId, REASON_INFRA_CAP, how, By(seed, "task-terminal"), seed)
      else db
  }

  predicate OwnsEveryRun(db: Db, taskId: string)
    requires taskId in db.tasks
  {
    forall id :: id in db.runs && db.runs[id].taskId == taskId ==> db.runs[id].queue == db.tasks[taskId].queue
  }

  predicate CancelAdmits(db: Db, queue: string, taskId: string, deadlineOnly: bool, unlessSagaBegan: bool) {
    && taskId in db.tasks
    && var task := db.tasks[taskId];
    && task.queue == queue && task.state.Live() && OwnsEveryRun(db, taskId)
    && (deadlineOnly ==> CancelDue(task, db.now)) && (unlessSagaBegan ==> task.saga.None?)
  }

  /** `cancel-task`, and `sweep:cancel` when only a passed deadline cancels. */
  function Cancel(db: Db, queue: string, taskId: string, deadlineOnly: bool, unlessSagaBegan: bool, seed: nat): Db {
    if !CancelAdmits(db, queue, taskId, deadlineOnly, unlessSagaBegan) then db
    else EndTask(db, taskId, CancelledTask(db.tasks[taskId], By(seed, "cancel")),
                 Closing(Cancelled, false, true, By(seed, "runs")), seed)
  }

  function CancelledTask(task: Task, stamp: Stamp): Task {
    task.(state := Cancelled, cancelAt := None, reason := Some(REASON_CANCELLED), stamp := stamp)
  }

  /**
   * A cancel by a build that knows no completion event: it writes none and wakes nobody. Such a
   * build is gone before any run waits for a task, which is the deploy rule.
   */
  predicate OlderBuildMayEnd(db: Db, taskId: string) {
    && taskId in db.tasks && CancelAdmits(db, db.tasks[taskId].queue, taskId, false, false)
    && forall key :: key in db.waits ==> db.waits[key].event != TaskDone(taskId)
  }

  /** How an older build ended the task: its rows are the ones the batch of this build leaves. */
  function OlderBuildEnds(db: Db, taskId: string, state: State, text: string, seed: nat): Db {
    if !OlderBuildMayEnd(db, taskId) || state.Live() then db
    else
      var task := db.tasks[taskId];
      var closed := CloseRuns(db, taskId, Closing(state, state == Completed, true, By(seed, "runs")));
      closed.(tasks := closed.tasks[taskId :=
        match state
        case Completed => task.(state := Completed, result := Some(text), cancelAt := None, stamp := By(seed, "task"))
        case Cancelled => CancelledTask(task, By(seed, "cancel"))
        case _ => task.(state := Failed, reason := Some(text), stamp := By(seed, "task"))])
  }

  /** The tasks an older build has ended, one more of them if this ending is admitted. */
  function OlderEnding(db: Db, older: set<string>, taskId: string, state: State): set<string> {
    if OlderBuildMayEnd(db, taskId) && !state.Live() then older + {taskId} else older
  }

  // ------------------------------------------------------------------------------------------
  // Revival.

  predicate TopRun(db: Db, taskId: string, id: string) {
    && id in db.runs && db.runs[id].taskId == taskId
    && forall other :: other in db.runs && db.runs[other].taskId == taskId
         ==> db.runs[other].attempt <= db.runs[id].attempt
  }

  /** The retry guard, its conjuncts over the top run's ordinal. */
  predicate RetryAdmits(db: Db, queue: string, taskId: string, top: string, runId: string) {
    && taskId in db.tasks && TopRun(db, taskId, top) && runId !in db.runs
    && var task := db.tasks[taskId];
    && task.queue == queue && task.state == Failed
    && OwnsEveryRun(db, taskId) && task.reason.Some? && task.result.None?
    && (forall id :: id in db.runs ==> !LiveRunOf(db, id, taskId))
    && task.saga.None?
    && var charge := db.runs[top].attempt - task.infraRetries;
    && 0 <= charge - task.attempts <= 1 && charge <= task.maxAttempts
  }

  /** `retry-task`: the failed task is live again, charged for its top run, with room for one more. */
  function RetryTask(db: Db, queue: string, taskId: string, top: string, runId: string, seed: nat): Db {
    if !RetryAdmits(db, queue, taskId, top, runId) then db
    else
      var task := db.tasks[taskId];
      db.(tasks := db.tasks[taskId := task.(state := Pending, attempts := UserAttempts(db.runs[top], task),
                                            maxAttempts := task.maxAttempts + 1, reason := None,
                                            stamp := By(seed, "revive"))],
          runs := db.runs[runId := Successor(db.runs[top], Pending, db.now, By(seed, "run"))])
  }

  // ------------------------------------------------------------------------------------------
  // Events and awaits.

  /** `emit-event`: the first payload stands, and whoever waits for the event gets the stored one. */
  function EmitEvent(db: Db, queue: string, name: string, text: string, seed: nat): Db {
    var key := (queue, FromPort(name));
    var event := if key in db.events then db.events[key].(stamp := By(seed, "event"))
                 else Event(Json(text), db.now, By(seed, "event"));
    Wake(db.(events := db.events[key := event]), queue, FromPort(name), seed)
  }

  datatype Await = Await(queue: string, taskId: string, runId: string, token: string, step: string)

  predicate StillClaimed(db: Db, a: Await) {
    Claimed(db, a.queue, a.runId, a.token) && db.runs[a.runId].taskId == a.taskId
  }

  /** A completion event is awaited only while its task is live, in the awaiting run's queue. */
  predicate ChildAdmits(db: Db, queue: string, name: EventName) {
    name.TaskDone? ==>
      name.taskId in db.tasks && db.tasks[name.taskId].queue == queue && db.tasks[name.taskId].state.Live()
  }

  predicate AwaitRegisters(db: Db, a: Await, name: EventName) {
    && (a.queue, name) !in db.events
    && StillClaimed(db, a)
    && Eligible(db.tasks[a.taskId], db.now) && db.tasks[a.taskId].saga.None?
    && ChildAdmits(db, a.queue, name)
    && (a.runId, a.step) !in db.waits
  }

  /** `await-event`: registers the wait and parks the run, in one step. */
  function AwaitEvent(db: Db, a: Await, name: EventName, timeoutMs: Option<nat>, seed: nat): Db {
    if !AwaitRegisters(db, a, name) then db
    else
      var timeoutAt := if timeoutMs.Some? then Some(db.now + timeoutMs.value) else None;
      var task := db.tasks[a.taskId];
      db.(waits := db.waits[(a.runId, a.step) := Wait(a.queue, a.taskId, name, timeoutAt, By(seed, "register"))],
          runs := db.runs[a.runId := Unclaimed(db.runs[a.runId]).(state := Sleeping, availableAt := timeoutAt,
                                        wakeEvent := Some(name), wakeStep := Some(a.step), eventPayload := None,
                                        stamp := By(seed, "park"))],
          tasks := db.tasks[a.taskId := task.(state := Sleeping, stamp := By(seed, "task-mirror"))])
  }

  /** What the batches of an await read of a stored event: only a live claim reads it. */
  function Hit(db: Db, a: Await, name: EventName): Option<Payload> {
    if (a.queue, name) in db.events && StillClaimed(db, a) && db.tasks[a.taskId].state.Live()
    then Some(db.events[(a.queue, name)].payload) else None
  }

  /** `record-task-done`: the missing event of an ended child, from the row that was read. */
  predicate RecordAdmits(db: Db, a: Await, child: string, childStamp: Stamp) {
    && child in db.tasks && db.tasks[child].stamp == childStamp
    && (db.tasks[child].queue, TaskDone(child)) !in db.events
    && StillClaimed(db, a) && db.tasks[a.taskId].state.Live()
  }

  function RecordTaskDone(db: Db, a: Await, child: string, childStamp: Stamp, outcome: Outcome, seed: nat): Db {
    if !RecordAdmits(db, a, child, childStamp) then db
    else db.(events := db.events[(db.tasks[child].queue, TaskDone(child)) :=
                                 Event(Encoded(outcome), db.now, By(seed, "materialize"))])
  }
}
