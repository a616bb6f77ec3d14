/** Cancellation, revival, the await, the emit and the claim, statement by statement. */
module OtherBatches {
  import opened Options
  import opened Tables
  import opened Protocol
  import opened ProtocolInvariant
  import opened ProtocolStarts
  import opened ProtocolSteps
  import opened Statements
  import opened Batches
  import opened ProtocolFollows

  // ------------------------------------------------------------------------------------------
  // `cancel-task` and `sweep:cancel`.

  datatype Cancelling = Cancelling(queue: string, taskId: string, deadlineOnly: bool, unlessSaga: bool)

  function TaskCancelled(db: Db, c: Cancelling, seed: nat): map<string, Task> {
    if CancelAdmits(db, c.queue, c.taskId, c.deadlineOnly, c.unlessSaga)
    then db.tasks[c.taskId := CancelledTask(db.tasks[c.taskId], By(seed, "cancel"))] else db.tasks
  }

  predicate CancelledByThis(db: Db, c: Cancelling, seed: nat) {
    c.taskId in db.tasks && db.tasks[c.taskId].queue == c.queue && db.tasks[c.taskId].stamp == By(seed, "cancel")
  }

  function RunsCancelled(db: Db, c: Cancelling, seed: nat): map<string, Run> {
    map id | id in db.runs ::
      if CancelledByThis(db, c, seed) && LiveRunOf(db, id, c.taskId) && db.runs[id].queue == c.queue
      then Close(db.runs[id], Closing(Cancelled, false, true, By(seed, "runs"))) else db.runs[id]
  }

  /** The waits of the runs this batch cancelled, and never by the wait's own task. */
  function WaitsCancelled(db: Db, c: Cancelling, seed: nat): map<WaitKey, Wait> {
    map key | key in db.waits && !(Stamped(db, key.0, By(seed, "runs")) && db.runs[key.0].taskId == c.taskId
                                   && db.runs[key.0].state == Cancelled) :: db.waits[key]
  }

  function CancelRows(db: Db, c: Cancelling, seed: nat): Db {
    var cancelled := db.(tasks := TaskCancelled(db, c, seed));
    var closed := cancelled.(runs := RunsCancelled(cancelled, c, seed));
    closed.(waits := WaitsCancelled(closed, c, seed))
  }

  function CancelStatements(db: Db, c: Cancelling, seed: nat): Db {
    Tail(CancelRows(db, c, seed), c.queue, c.taskId, By(seed, "cancel"), Outcome(Cancelled, None, Some(REASON_CANCELLED)), seed)
  }

  function CancelOf(db: Db, c: Cancelling, seed: nat): Db {
    Cancel(db, c.queue, c.taskId, c.deadlineOnly, c.unlessSaga, seed)
  }

  lemma CancelClosesRuns(db: Db, c: Cancelling, seed: nat)
    requires Fits(db) && CancelAdmits(db, c.queue, c.taskId, c.deadlineOnly, c.unlessSaga)
    ensures RunsCancelled(db.(tasks := TaskCancelled(db, c, seed)), c, seed)
         == CloseRuns(db, c.taskId, Closing(Cancelled, false, true, By(seed, "runs"))).runs
  {
    forall id | id in db.runs ensures LiveRunOf(db, id, c.taskId) ==> db.runs[id].queue == c.queue {
      assert Owns(db, db.runs[id]);
    }
  }

  lemma CancelReapsWaits(db: Db, tasks: map<string, Task>, c: Cancelling, seed: nat)
    requires forall key :: key in db.waits ==> key.0 in db.runs && !Stamped(db, key.0, By(seed, "runs"))
    ensures var closed := CloseRuns(db, c.taskId, Closing(Cancelled, false, true, By(seed, "runs")));
      WaitsCancelled(db.(tasks := tasks, runs := closed.runs), c, seed) == closed.waits
  {
  }

  lemma CancelRowsEnd(db: Db, c: Cancelling, seed: nat)
    requires Fits(db) && CancelAdmits(db, c.queue, c.taskId, c.deadlineOnly, c.unlessSaga)
    requires forall key :: key in db.waits ==> key.0 in db.runs && !Stamped(db, key.0, By(seed, "runs"))
    ensures CancelRows(db, c, seed)
         == Ended(db, c.taskId, CancelledTask(db.tasks[c.taskId], By(seed, "cancel")),
                  Closing(Cancelled, false, true, By(seed, "runs")))
  {
    hide Fits, CancelledTask, RunsCancelled, WaitsCancelled;
    CancelClosesRuns(db, c, seed);
    CancelReapsWaits(db, TaskCancelled(db, c, seed), c, seed);
  }

  /** A delivery that cancels nothing: the task is not live, or was not admitted. */
  lemma NothingCancelled(db: Db, c: Cancelling, seed: nat)
    requires !CancelAdmits(db, c.queue, c.taskId, c.deadlineOnly, c.unlessSaga)
    requires CancelledByThis(db, c, seed) ==> forall id :: id in db.runs ==> !LiveRunOf(db, id, c.taskId)
    requires forall key :: key in db.waits ==> !Stamped(db, key.0, By(seed, "runs"))
    ensures CancelRows(db, c, seed) == db
  {
    assert RunsCancelled(db, c, seed) == db.runs;
    assert WaitsCancelled(db, c, seed) == db.waits;
  }

  /** What this batch left, if it was delivered: a cancelled task with its event, and its ended runs. */
  ghost predicate CancellationStands(db: Db, c: Cancelling, seed: nat) {
    && NoneHalfWoken(db, seed)
    && (CancelledByThis(db, c, seed) ==> db.tasks[c.taskId].state == Cancelled && (c.queue, TaskDone(c.taskId)) in db.events)
    && (!Untold(db, c.queue, c.taskId, seed) ==> c.taskId in db.tasks && db.tasks[c.taskId].state == Cancelled)
    && (forall id :: Stamped(db, id, By(seed, "runs")) ==> !db.runs[id].state.Live())
  }

  lemma WaitersAreNotCancelled(db: Db, older: set<string>, c: Cancelling, seed: nat)
    requires Inv(db, older) && CancellationStands(db, c, seed)
    ensures forall key :: key in db.waits ==> key.0 in db.runs && !Stamped(db, key.0, By(seed, "runs"))
  {
    forall key | key in db.waits ensures key.0 in db.runs && !Stamped(db, key.0, By(seed, "runs")) {
      assert Sleeper(db.runs[key.0], key.1, db.waits[key]);
    }
  }

  /** Whenever they arrive, the statements of a cancellation are its one atomic step taken then. */
  lemma CancelDelivers(db: Db, older: set<string>, c: Cancelling, seed: nat)
    requires Inv(db, older) && CancellationStands(db, c, seed)
    ensures CancelStatements(db, c, seed) == CancelOf(db, c, seed)
  {
    hide Awaited, Wake, Manned, Numbered, Settled, TaskCancelled, RunsCancelled, WaitsCancelled;
    WaitersAreNotCancelled(db, older, c, seed);
    if CancelAdmits(db, c.queue, c.taskId, c.deadlineOnly, c.unlessSaga) {
      CancelRowsEnd(db, c, seed);
      var ended := CancelledTask(db.tasks[c.taskId], By(seed, "cancel"));
      assert TaskFits(db.tasks[c.taskId]);
      TailAnnounces(Ended(db, c.taskId, ended, Closing(Cancelled, false, true, By(seed, "runs"))), c.queue, c.taskId,
                    By(seed, "cancel"), OutcomeOf(ended), seed);
    } else {
      if CancelledByThis(db, c, seed) { EndedTaskHasNoLiveRun(db, c.taskId); }
      NothingCancelled(db, c, seed);
      TailAgain(db, older, c.queue, c.taskId, By(seed, "cancel"), Outcome(Cancelled, None, Some(REASON_CANCELLED)), seed);
    }
  }

  lemma EndedTaskHasNoLiveRun(db: Db, taskId: string)
    requires Fits(db) && Mirrored(db) && taskId in db.tasks && !db.tasks[taskId].state.Live()
    ensures forall id :: id in db.runs ==> !LiveRunOf(db, id, taskId)
  {
    forall id | id in db.runs ensures !LiveRunOf(db, id, taskId) {
      assert Owns(db, db.runs[id]);
    }
  }

  lemma CancelEndsItsTask(db: Db, older: set<string>, c: Cancelling, seed: nat) returns (live: string)
    requires Inv(db, older) && CancelAdmits(db, c.queue, c.taskId, c.deadlineOnly, c.unlessSaga)
    ensures Ends(db, c.taskId, live, CancelledTask(db.tasks[c.taskId], By(seed, "cancel")),
                 Closing(Cancelled, false, true, By(seed, "runs")))
  {
    hide Awaited, Settled;
    live :| LiveRunOf(db, live, c.taskId);
    LiveRunIsTop(db, live);
  }

  /** The stamp a closing leaves is on no live run, but where it was on one before. */
  lemma EndTaskStampsTheEnded(db: Db, taskId: string, ended: Task, how: Closing, seed: nat, id: string)
    requires Stamped(EndTask(db, taskId, ended, how, seed), id, how.stamp) && how.stamp != By(seed, "wake-finished")
    requires !how.state.Live() && EndTask(db, taskId, ended, how, seed).runs[id].state.Live()
    ensures Stamped(db, id, how.stamp) && db.runs[id].state.Live()
  {
  }

  lemma CancelLeaves(db: Db, older: set<string>, c: Cancelling, seed: nat)
    requires Inv(db, older) && CancellationStands(db, c, seed)
    ensures CancellationStands(CancelOf(db, c, seed), c, seed)
  {
    hide Inv, EndTask, CancelAdmits, Ends;
    if CancelAdmits(db, c.queue, c.taskId, c.deadlineOnly, c.unlessSaga) {
      CancelTakesIts(db, c);
      var live := CancelEndsItsTask(db, older, c, seed);
      var ended, how := CancelledTask(db.tasks[c.taskId], By(seed, "cancel")), Closing(Cancelled, false, true, By(seed, "runs"));
      EndTaskLeaves(db, c.taskId, live, ended, how, seed);
      forall id | Stamped(CancelOf(db, c, seed), id, By(seed, "runs")) ensures !CancelOf(db, c, seed).runs[id].state.Live() {
        if CancelOf(db, c, seed).runs[id].state.Live() { EndTaskStampsTheEnded(db, c.taskId, ended, how, seed, id); }
      }
    }
  }

  lemma CancelTakesIts(db: Db, c: Cancelling)
    requires CancelAdmits(db, c.queue, c.taskId, c.deadlineOnly, c.unlessSaga)
    ensures c.taskId in db.tasks && db.tasks[c.taskId].queue == c.queue
  {
  }

  lemma CancellationStandsOn(db: Db, after: Db, c: Cancelling, seed: nat)
    requires CancellationStands(db, c, seed) && Follows(db, after, seed)
    ensures CancellationStands(after, c, seed)
  {
  }

  lemma UncancelledStands(db: Db, c: Cancelling, seed: nat)
    requires Unspent(db, seed)
    ensures CancellationStands(db, c, seed)
  {
  }

  lemma CancelAgain(first: Db, older: set<string>, c: Cancelling, seed: nat)
    requires Inv(first, older) && Unspent(first, seed)
    ensures CancelStatements(CancelOf(first, c, seed), c, seed) == CancelOf(first, c, seed)
  {
    hide Inv, Cancel, CancelStatements, Unspent, CancellationStands;
    UncancelledStands(first, c, seed);
    CancelKeeps(first, older, c.queue, c.taskId, c.deadlineOnly, c.unlessSaga, seed);
    CancelLeaves(first, older, c, seed);
    CancelDelivers(CancelOf(first, c, seed), older, c, seed);
    CancelsOnce(first, c, seed);
  }

  lemma CancelsOnce(first: Db, c: Cancelling, seed: nat)
    ensures CancelOf(CancelOf(first, c, seed), c, seed) == CancelOf(first, c, seed)
  {
    hide CloseRuns, OwnsEveryRun, CancelDue;
  }

  // ------------------------------------------------------------------------------------------
  // `retry-task`.

  datatype Reviving = Reviving(queue: string, taskId: string, top: string, runId: string)

  function ReviveOf(db: Db, r: Reviving, seed: nat): Db {
    RetryTask(db, r.queue, r.taskId, r.top, r.runId, seed)
  }

  function TaskRevived(db: Db, r: Reviving, seed: nat): map<string, Task> {
    if RetryAdmits(db, r.queue, r.taskId, r.top, r.runId)
    then
      var task := db.tasks[r.taskId];
      db.tasks[r.taskId := task.(state := Pending, attempts := UserAttempts(db.runs[r.top], task),
                                 maxAttempts := task.maxAttempts + 1, reason := None, stamp := By(seed, "revive"))]
    else db.tasks
  }

  /** The revival's run, unless the task has a live run: ownership, which an exact replay finds. */
  function RunRevived(db: Db, r: Reviving, seed: nat): map<string, Run> {
    if r.taskId in db.tasks && db.tasks[r.taskId].stamp == By(seed, "revive") && TopRun(db, r.taskId, r.top)
       && forall id :: id in db.runs ==> !LiveRunOf(db, id, r.taskId)
    then db.runs[r.runId := Successor(db.runs[r.top], Pending, db.now, By(seed, "run"))] else db.runs
  }

  function ReviveStatements(db: Db, r: Reviving, seed: nat): Db {
    var revived := db.(tasks := TaskRevived(db, r, seed));
    revived.(runs := RunRevived(revived, r, seed))
  }

  /** A task under this batch's stamp is live: whatever ended it took the stamp off. */
  predicate RevivalStands(db: Db, r: Reviving, seed: nat) {
    r.taskId in db.tasks && db.tasks[r.taskId].stamp == By(seed, "revive") ==> db.tasks[r.taskId].state.Live()
  }

  /** Whenever they arrive, the statements of a revival are its one atomic step taken then. */
  lemma ReviveDelivers(db: Db, older: set<string>, r: Reviving, seed: nat)
    requires Inv(db, older) && RevivalStands(db, r, seed)
    ensures ReviveStatements(db, r, seed) == ReviveOf(db, r, seed)
  {
    hide Awaited, Settled, Numbered;
    if !RetryAdmits(db, r.queue, r.taskId, r.top, r.runId) {
      if r.taskId in db.tasks && db.tasks[r.taskId].state.Live() {
        var live :| LiveRunOf(db, live, r.taskId);
      }
    }
  }

  lemma ReviveLeaves(db: Db, r: Reviving, seed: nat)
    requires RevivalStands(db, r, seed)
    ensures RevivalStands(ReviveOf(db, r, seed), r, seed)
  {
  }

  lemma RevivalStandsOn(db: Db, after: Db, r: Reviving, seed: nat)
    requires RevivalStands(db, r, seed) && Follows(db, after, seed)
    ensures RevivalStands(after, r, seed)
  {
  }

  lemma ReviveAgain(first: Db, older: set<string>, r: Reviving, seed: nat)
    requires Inv(first, older) && Unspent(first, seed)
    ensures ReviveStatements(ReviveOf(first, r, seed), r, seed) == ReviveOf(first, r, seed)
  {
    if RetryAdmits(first, r.queue, r.taskId, r.top, r.runId) {
      assert LiveRunOf(ReviveOf(first, r, seed), r.runId, r.taskId);
    }
  }

  // ------------------------------------------------------------------------------------------
  // `await-event`.

  datatype Awaiting = Awaiting(a: Await, name: EventName, timeoutMs: Option<nat>)

  function AwaitOf(db: Db, w: Awaiting, seed: nat): Db {
    AwaitEvent(db, w.a, w.name, w.timeoutMs, seed)
  }

  function WaitRegistered(db: Db, w: Awaiting, seed: nat): map<WaitKey, Wait> {
    if AwaitRegisters(db, w.a, w.name)
    then db.waits[(w.a.runId, w.a.step) :=
           Wait(w.a.queue, w.a.taskId, w.name, if w.timeoutMs.Some? then Some(db.now + w.timeoutMs.value) else None,
                By(seed, "register"))]
    else db.waits
  }

  predicate RegisteredByThis(db: Db, w: Awaiting, seed: nat) {
    (w.a.runId, w.a.step) in db.waits && db.waits[(w.a.runId, w.a.step)].stamp == By(seed, "register")
  }

  /** The run parks until its own wait's timeout, copied from the row just registered. */
  function RunParked(db: Db, w: Awaiting, seed: nat): map<string, Run> {
    if RegisteredByThis(db, w, seed) && StillClaimed(db, w.a) && db.tasks[w.a.taskId].state.Live()
    then db.runs[w.a.runId :=
           Unclaimed(db.runs[w.a.runId]).(state := Sleeping, availableAt := db.waits[(w.a.runId, w.a.step)].timeoutAt,
                                          wakeEvent := Some(w.name), wakeStep := Some(w.a.step), eventPayload := None,
                                          stamp := By(seed, "park"))]
    else db.runs
  }

  function TaskSleeps(db: Db, w: Awaiting, seed: nat): map<string, Task> {
    if Stamped(db, w.a.runId, By(seed, "park")) && db.runs[w.a.runId].state == Sleeping && Owns(db, db.runs[w.a.runId])
       && db.tasks[db.runs[w.a.runId].taskId].state.Live()
    then db.tasks[db.runs[w.a.runId].taskId := db.tasks[db.runs[w.a.runId].taskId].(state := Sleeping,
                                                                                    stamp := By(seed, "task-mirror"))]
    else db.tasks
  }

  function AwaitStatements(db: Db, w: Awaiting, seed: nat): Db {
    var registered := db.(waits := WaitRegistered(db, w, seed));
    var parked := registered.(runs := RunParked(registered, w, seed));
    parked.(tasks := TaskSleeps(parked, w, seed))
  }

  lemma AwaitWins(db: Db, w: Awaiting, seed: nat)
    requires AwaitRegisters(db, w.a, w.name)
    ensures AwaitStatements(db, w, seed) == AwaitOf(db, w, seed)
  {
  }

  /** A run still parked under this batch's stamp, and its task as this batch left it. */
  predicate AwaitStands(db: Db, w: Awaiting, seed: nat) {
    Stamped(db, w.a.runId, By(seed, "park")) ==>
      && db.runs[w.a.runId].state == Sleeping && db.runs[w.a.runId].taskId in db.tasks
      && var task := db.tasks[db.runs[w.a.runId].taskId];
      && task.state == Sleeping && task.stamp == By(seed, "task-mirror")
  }

  /** Whenever they arrive, the statements of an await are its one atomic step taken then. */
  lemma AwaitDelivers(db: Db, older: set<string>, w: Awaiting, seed: nat)
    requires Inv(db, older) && AwaitStands(db, w, seed)
    ensures AwaitStatements(db, w, seed) == AwaitOf(db, w, seed)
  {
    if AwaitRegisters(db, w.a, w.name) {
      AwaitWins(db, w, seed);
    } else {
      if (w.a.runId, w.a.step) in db.waits {
        assert Sleeper(db.runs[w.a.runId], w.a.step, db.waits[(w.a.runId, w.a.step)]);
      }
      assert RunParked(db, w, seed) == db.runs;
      assert TaskSleeps(db, w, seed) == db.tasks;
    }
  }

  lemma AwaitLeaves(db: Db, w: Awaiting, seed: nat)
    requires AwaitStands(db, w, seed)
    ensures AwaitStands(AwaitOf(db, w, seed), w, seed)
  {
  }

  lemma AwaitStandsOn(db: Db, after: Db, w: Awaiting, seed: nat)
    requires AwaitStands(db, w, seed) && Follows(db, after, seed)
    ensures AwaitStands(after, w, seed)
  {
  }

  lemma AwaitAgain(first: Db, older: set<string>, w: Awaiting, seed: nat)
    requires Inv(first, older) && Unspent(first, seed)
    ensures AwaitStatements(AwaitOf(first, w, seed), w, seed) == AwaitOf(first, w, seed)
  {
    AwaitKeeps(first, older, w.a, w.name, w.timeoutMs, seed);
    AwaitLeaves(first, w, seed);
    AwaitDelivers(AwaitOf(first, w, seed), older, w, seed);
    AwaitsOnce(first, w, seed);
  }

  lemma AwaitsOnce(first: Db, w: Awaiting, seed: nat)
    ensures AwaitOf(AwaitOf(first, w, seed), w, seed) == AwaitOf(first, w, seed)
  {
  }

  // ------------------------------------------------------------------------------------------
  // `emit-event`.

  datatype Emitting = Emitting(queue: string, name: string, text: string)

  function EmitOf(db: Db, e: Emitting, seed: nat): Db {
    EmitEvent(db, e.queue, e.name, e.text, seed)
  }

  /** The first write's payload and instant stand, and a later emit only stamps the row. */
  function EventEmitted(db: Db, e: Emitting, seed: nat): map<EventKey, Event> {
    var key := (e.queue, FromPort(e.name));
    if key !in db.events then db.events[key := Event(Json(e.text), db.now, By(seed, "event"))]
    else if db.events[key].stamp != By(seed, "event") then db.events[key := db.events[key].(stamp := By(seed, "event"))]
    else db.events
  }

  function EmitStatements(db: Db, e: Emitting, seed: nat): Db {
    Told(db.(events := EventEmitted(db, e, seed)), e.queue, FromPort(e.name), By(seed, "event"), seed)
  }

  /** Whenever they arrive, the statements of an emit are its one atomic step taken then. */
  lemma EmitDelivers(db: Db, e: Emitting, seed: nat)
    requires NoneHalfWoken(db, seed)
    ensures EmitStatements(db, e, seed) == EmitOf(db, e, seed)
  {
    TellingIsWaking(db.(events := EventEmitted(db, e, seed)), e.queue, FromPort(e.name), By(seed, "event"), seed);
  }

  lemma EmitLeaves(db: Db, e: Emitting, seed: nat)
    requires NoneHalfWoken(db, seed)
    ensures NoneHalfWoken(EmitOf(db, e, seed), seed)
  {
  }

  lemma NoneHalfWokenOn(db: Db, after: Db, seed: nat)
    requires NoneHalfWoken(db, seed) && Follows(db, after, seed)
    ensures NoneHalfWoken(after, seed)
  {
    forall id | id in after.runs && Bears(after.runs[id].stamp, seed) ensures after.runs[id].stamp != By(seed, "wake-runs") {
      assert Kept(db, after, id);
    }
  }

  lemma EmitAgain(first: Db, older: set<string>, e: Emitting, seed: nat)
    requires Inv(first, older) && Unspent(first, seed)
    ensures EmitStatements(EmitOf(first, e, seed), e, seed) == EmitOf(first, e, seed)
  {
    var db := EmitOf(first, e, seed);
    EmitKeeps(first, older, e.queue, e.name, e.text, seed);
    assert EventEmitted(db, e, seed) == db.events;
    TellingIsWaking(db, e.queue, FromPort(e.name), By(seed, "event"), seed);
    NobodyWaitsForTheStored(db, older, e.queue, FromPort(e.name), seed);
  }

  // ------------------------------------------------------------------------------------------
  // `claim`.

  datatype Claiming = Claiming(queue: string, token: string, leaseMs: nat, limit: nat, picked: set<string>)

  function ClaimOf(db: Db, c: Claiming, seed: nat): Db {
    Claim(db, c.queue, c.token, c.leaseMs, c.limit, c.picked, seed)
  }

  function RunsClaimed(db: Db, c: Claiming, seed: nat): map<string, Run> {
    if ClaimAdmits(db, c.queue, c.token, c.leaseMs, c.limit, c.picked)
    then map id | id in db.runs ::
           if id in c.picked
           then db.runs[id].(state := Running, claimedBy := Some(c.token), claimGen := db.runs[id].claimGen + 1,
                             leaseMs := c.leaseMs, expiresAt := Some(db.now + c.leaseMs), stamp := By(seed, "claim"))
           else db.runs[id]
    else db.runs
  }

  /** The runs this batch took: its stamp says which, and not the token, which a second delivery shares. */
  predicate Taken(db: Db, id: string, c: Claiming, seed: nat) {
    Stamped(db, id, By(seed, "claim")) && db.runs[id].queue == c.queue && db.runs[id].state == Running
    && db.runs[id].claimedBy == Some(c.token)
  }

  function TasksBooked(db: Db, c: Claiming, seed: nat): map<string, Task> {
    map taskId | taskId in db.tasks ::
      if db.tasks[taskId].state.Live() && exists id :: id in db.runs && Taken(db, id, c, seed) && db.runs[id].taskId == taskId
      then db.tasks[taskId].(state := Running, stamp := By(seed, "task-book")) else db.tasks[taskId]
  }

  function WaitsTimedOut(db: Db, c: Claiming, seed: nat): map<WaitKey, Wait> {
    map key | key in db.waits && !(Taken(db, key.0, c, seed) && db.waits[key].timeoutAt.Some?
                                   && db.waits[key].timeoutAt.value <= db.now) :: db.waits[key]
  }

  function ClaimStatements(db: Db, c: Claiming, seed: nat): Db {
    var claimed := db.(runs := RunsClaimed(db, c, seed));
    var booked := claimed.(tasks := TasksBooked(claimed, c, seed));
    booked.(waits := WaitsTimedOut(booked, c, seed))
  }

  /** No run bears this batch's stamp: it was not delivered, or the runs it took moved on. */
  ghost predicate NoneTaken(db: Db, seed: nat) {
    forall id :: !Stamped(db, id, By(seed, "claim"))
  }

  lemma TakenAreThePicked(db: Db, c: Claiming, seed: nat)
    requires NoneTaken(db, seed) && ClaimAdmits(db, c.queue, c.token, c.leaseMs, c.limit, c.picked)
    ensures forall id :: Taken(db.(runs := RunsClaimed(db, c, seed)), id, c, seed) <==> id in c.picked
  {
    forall id ensures Taken(db.(runs := RunsClaimed(db, c, seed)), id, c, seed) <==> id in c.picked {
      if id in c.picked { assert Claimable(db, c.queue, id); }
      assert !Stamped(db, id, By(seed, "claim"));
    }
  }

  /** A claimed run's task is live, and by the claim's stamp the batch finds it. */
  lemma PickedIsBooked(db: Db, c: Claiming, seed: nat, taskId: string)
    requires NoneTaken(db, seed) && ClaimAdmits(db, c.queue, c.token, c.leaseMs, c.limit, c.picked) && taskId in db.tasks
    ensures TasksBooked(db.(runs := RunsClaimed(db, c, seed)), c, seed)[taskId] == ClaimOf(db, c, seed).tasks[taskId]
  {
    var claimed := db.(runs := RunsClaimed(db, c, seed));
    TakenAreThePicked(db, c, seed);
    if exists id :: id in c.picked && id in db.runs && db.runs[id].taskId == taskId {
      var id :| id in c.picked && id in db.runs && db.runs[id].taskId == taskId;
      assert Claimable(db, c.queue, id);
      assert id in claimed.runs && Taken(claimed, id, c, seed) && claimed.runs[id].taskId == taskId;
    }
  }

  lemma ClaimBooks(db: Db, c: Claiming, seed: nat)
    requires NoneTaken(db, seed) && ClaimAdmits(db, c.queue, c.token, c.leaseMs, c.limit, c.picked)
    ensures TasksBooked(db.(runs := RunsClaimed(db, c, seed)), c, seed) == ClaimOf(db, c, seed).tasks
  {
    forall taskId | taskId in db.tasks
      ensures TasksBooked(db.(runs := RunsClaimed(db, c, seed)), c, seed)[taskId] == ClaimOf(db, c, seed).tasks[taskId]
    {
      PickedIsBooked(db, c, seed, taskId);
    }
  }

  lemma ClaimReaps(db: Db, c: Claiming, seed: nat, tasks: map<string, Task>)
    requires NoneTaken(db, seed) && ClaimAdmits(db, c.queue, c.token, c.leaseMs, c.limit, c.picked)
    ensures WaitsTimedOut(db.(runs := RunsClaimed(db, c, seed), tasks := tasks), c, seed) == ClaimOf(db, c, seed).waits
  {
    TakenAreThePicked(db, c, seed);
    var claimed := db.(runs := RunsClaimed(db, c, seed));
    assert forall id :: Taken(db.(runs := RunsClaimed(db, c, seed), tasks := tasks), id, c, seed) == Taken(claimed, id, c, seed);
  }

  lemma ClaimWins(db: Db, c: Claiming, seed: nat)
    requires NoneTaken(db, seed) && ClaimAdmits(db, c.queue, c.token, c.leaseMs, c.limit, c.picked)
    ensures ClaimStatements(db, c, seed) == ClaimOf(db, c, seed)
  {
    ClaimBooks(db, c, seed);
    ClaimReaps(db, c, seed, ClaimOf(db, c, seed).tasks);
  }

  /** A run under this batch's stamp is still held under its token, and its task is booked. */
  ghost predicate ClaimStands(db: Db, c: Claiming, seed: nat) {
    forall id :: Stamped(db, id, By(seed, "claim")) ==>
      && Taken(db, id, c, seed) && db.runs[id].taskId in db.tasks
      && var task := db.tasks[db.runs[id].taskId];
      && task.state == Running && task.stamp == By(seed, "task-book")
  }

  lemma TokenIsHeld(db: Db, c: Claiming, seed: nat, id: string)
    requires Stamped(db, id, By(seed, "claim")) && ClaimStands(db, c, seed)
    ensures !ClaimAdmits(db, c.queue, c.token, c.leaseMs, c.limit, c.picked)
  {
    assert id in Held(db, c.queue, c.token);
  }

  lemma TakenHasNoWait(db: Db, older: set<string>, c: Claiming, seed: nat)
    requires Inv(db, older)
    ensures WaitsTimedOut(db, c, seed) == db.waits
  {
    forall key | key in db.waits ensures !Taken(db, key.0, c, seed) {
      assert Sleeper(db.runs[key.0], key.1, db.waits[key]);
    }
  }

  lemma TakenIsBooked(db: Db, c: Claiming, seed: nat)
    requires ClaimStands(db, c, seed)
    ensures TasksBooked(db, c, seed) == db.tasks
  {
    forall id | id in db.runs && Taken(db, id, c, seed)
      ensures db.runs[id].taskId in db.tasks && db.tasks[db.runs[id].taskId].state == Running
      ensures db.tasks[db.runs[id].taskId].stamp == By(seed, "task-book")
    {
      assert Stamped(db, id, By(seed, "claim"));
    }
  }

  lemma TakenStay(db: Db, older: set<string>, c: Claiming, seed: nat)
    requires Inv(db, older) && ClaimStands(db, c, seed) && RunsClaimed(db, c, seed) == db.runs
    ensures ClaimStatements(db, c, seed) == db
  {
    hide Inv, ClaimStands, RunsClaimed, TasksBooked, WaitsTimedOut;
    TakenIsBooked(db, c, seed);
    TakenHasNoWait(db, older, c, seed);
  }

  /**
   * Whenever they arrive, the statements of a claim are its one atomic step taken then, over
   * whatever candidates its subquery picks then: a token that holds a run takes none.
   */
  lemma ClaimDelivers(db: Db, older: set<string>, c: Claiming, seed: nat)
    requires Inv(db, older) && ClaimStands(db, c, seed)
    ensures ClaimStatements(db, c, seed) == ClaimOf(db, c, seed)
  {
    if ClaimAdmits(db, c.queue, c.token, c.leaseMs, c.limit, c.picked) {
      forall id ensures !Stamped(db, id, By(seed, "claim")) {
        if Stamped(db, id, By(seed, "claim")) { TokenIsHeld(db, c, seed, id); }
      }
      ClaimWins(db, c, seed);
    } else {
      TakenStay(db, older, c, seed);
    }
  }

  lemma ClaimLeaves(db: Db, c: Claiming, seed: nat)
    requires ClaimStands(db, c, seed)
    ensures ClaimStands(ClaimOf(db, c, seed), c, seed)
  {
    if ClaimAdmits(db, c.queue, c.token, c.leaseMs, c.limit, c.picked) {
      forall id | Stamped(ClaimOf(db, c, seed), id, By(seed, "claim")) ensures id in c.picked && Claimable(db, c.queue, id) {
        if id !in c.picked { TokenIsHeld(db, c, seed, id); }
      }
    }
  }

  lemma ClaimStandsOn(db: Db, after: Db, c: Claiming, seed: nat)
    requires ClaimStands(db, c, seed) && Follows(db, after, seed)
    ensures ClaimStands(after, c, seed)
  {
    forall id | Stamped(after, id, By(seed, "claim"))
      ensures Taken(after, id, c, seed) && after.runs[id].taskId in after.tasks
      ensures after.tasks[after.runs[id].taskId] == db.tasks[db.runs[id].taskId] && Stamped(db, id, By(seed, "claim"))
    {
      assert Kept(db, after, id);
    }
  }

  /** A claim delivered twice takes no second batch of runs: a token that holds one takes none. */
  lemma ClaimAgain(first: Db, older: set<string>, c: Claiming, seed: nat)
    requires Inv(first, older) && Unspent(first, seed)
    ensures ClaimStatements(ClaimOf(first, c, seed), c, seed) == ClaimOf(first, c, seed)
  {
    ClaimKeeps(first, older, c.queue, c.token, c.leaseMs, c.limit, c.picked, seed);
    ClaimLeaves(first, c, seed);
    ClaimDelivers(ClaimOf(first, c, seed), older, c, seed);
    ClaimsOnce(first, c, seed);
  }

  lemma ClaimsOnce(first: Db, c: Claiming, seed: nat)
    ensures ClaimOf(ClaimOf(first, c, seed), c, seed) == ClaimOf(first, c, seed)
  {
    var db := ClaimOf(first, c, seed);
    if ClaimAdmits(first, c.queue, c.token, c.leaseMs, c.limit, c.picked) {
      if c.picked == {} {
        assert db.runs == first.runs && db.tasks == first.tasks && db.waits == first.waits;
      } else {
        var id :| id in c.picked;
        assert Claimable(first, c.queue, id);
        assert id in Held(db, c.queue, c.token);
      }
    }
  }
}
