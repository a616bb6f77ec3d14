/** What every batch keeps, whatever the order of the batches and whoever sends them. */
module ProtocolInvariant {
  import opened Options
  import opened Tables
  import opened Protocol

  // ------------------------------------------------------------------------------------------
  // One task and its runs.

  /** A running run holds a claim and a lease, and no other run holds a claim. Relaunches stay within their cap. */
  predicate RunFits(run: Run) {
    && (run.state == Running <==> run.claimedBy.Some?)
    && (run.state == Running ==> run.expiresAt.Some?)
    && run.activatedGen <= run.claimGen && run.relaunches <= RELAUNCH_CAP
  }

  /** Infrastructure retries stay within their cap, and the outcome columns say how the task ended. */
  predicate TaskFits(task: Task) {
    && task.infraRetries <= INFRA_RETRY_CAP
    && (task.state.Live() ==> task.result.None? && task.reason.None?)
    && (task.state == Completed ==> task.result.Some? && task.reason.None?)
    && (task.state == Failed || task.state == Cancelled ==> task.result.None? && task.reason.Some?)
  }

  ghost predicate Fits(db: Db) {
    && (forall id :: id in db.runs ==> RunFits(db.runs[id]) && Owns(db, db.runs[id]))
    && (forall taskId :: taskId in db.tasks ==> TaskFits(db.tasks[taskId]))
  }

  /** A live run's task is live in the same state, and has no other live run. */
  ghost predicate Mirrored(db: Db) {
    && (forall id :: id in db.runs && db.runs[id].state.Live() ==>
          db.runs[id].taskId in db.tasks && db.tasks[db.runs[id].taskId].state == db.runs[id].state)
    && (forall id, other, taskId :: LiveRunOf(db, id, taskId) && LiveRunOf(db, other, taskId) ==> id == other)
  }

  /** A live task has a live run. */
  ghost predicate Manned(db: Db) {
    forall taskId :: taskId in db.tasks && db.tasks[taskId].state.Live() ==> exists id :: LiveRunOf(db, id, taskId)
  }

  /** The live run's ordinal is the highest, and the sum of its task's counters plus one. */
  ghost predicate Numbered(db: Db) {
    forall id :: id in db.runs && db.runs[id].state.Live() ==>
      && db.runs[id].taskId in db.tasks && Accounted(db.runs[id], db.tasks[db.runs[id].taskId])
      && HighestOrdinal(db, id)
  }

  /** The sum of an ended task's counters is the ordinal or one less, and the ordinal is within the budget. */
  predicate Charged(run: Run, task: Task) {
    && task.attempts + task.infraRetries <= run.attempt <= task.attempts + task.infraRetries + 1
    && run.attempt <= task.maxAttempts + task.infraRetries
  }

  ghost predicate Settled(db: Db) {
    forall taskId :: taskId in db.tasks && !db.tasks[taskId].state.Live() ==>
      exists id :: TopRun(db, taskId, id) && Charged(db.runs[id], db.tasks[taskId])
  }

  ghost predicate Sound(db: Db) {
    Fits(db) && Mirrored(db) && Manned(db) && Numbered(db) && Settled(db)
  }

  // ------------------------------------------------------------------------------------------
  // Waits and events.

  /** A run asleep under the wait, which answers for the wake the run carries. */
  predicate Sleeper(run: Run, step: string, wait: Wait) {
    && run.queue == wait.queue && run.taskId == wait.taskId
    && run.state == Sleeping && run.wakeEvent == Some(wait.event) && run.wakeStep == Some(step)
    && run.availableAt == wait.timeoutAt && run.eventPayload.None?
  }

  /** The event has not happened, and if it is a task's completion, the task is live in the same queue. */
  predicate StillAhead(db: Db, wait: Wait) {
    (wait.queue, wait.event) !in db.events && ChildAdmits(db, wait.queue, wait.event)
  }

  /** Every wait can still be answered. `telling` is an event a batch has stored and not yet told. */
  ghost predicate Wakeable(db: Db, telling: set<EventKey>) {
    forall key :: key in db.waits ==>
      && key.0 in db.runs && Sleeper(db.runs[key.0], key.1, db.waits[key])
      && ((db.waits[key].queue, db.waits[key].event) in telling || StillAhead(db, db.waits[key]))
  }

  /** A live run that no instant makes due is asleep on a registered wait, or running. */
  ghost predicate NobodyStranded(db: Db) {
    forall id :: id in db.runs && db.runs[id].state.Live() && db.runs[id].availableAt.None? ==>
      db.runs[id].state == Running
      || (db.runs[id].state == Sleeping && db.runs[id].wakeStep.Some? && (id, db.runs[id].wakeStep.value) in db.waits)
  }

  /** Every ended task has its completion event in its own queue, but for those an older build ended. */
  ghost predicate Announced(db: Db, older: set<string>) {
    && (forall taskId :: taskId in db.tasks && !db.tasks[taskId].state.Live() && taskId !in older ==>
          (db.tasks[taskId].queue, TaskDone(taskId)) in db.events)
    && (forall key :: key in db.events && key.1.TaskDone? ==>
          key.1.taskId in db.tasks && db.tasks[key.1.taskId].queue == key.0 && Decodes(db.events[key].payload))
  }

  /** A payload parked on a run is the stored payload of the event it waited for. */
  ghost predicate Carried(db: Db) {
    forall id :: id in db.runs && db.runs[id].eventPayload.Some? ==>
      && db.runs[id].wakeEvent.Some? && (db.runs[id].queue, db.runs[id].wakeEvent.value) in db.events
      && db.runs[id].eventPayload.value == db.events[(db.runs[id].queue, db.runs[id].wakeEvent.value)].payload
  }

  ghost predicate Awaited(db: Db, older: set<string>, telling: set<EventKey>) {
    Wakeable(db, telling) && NobodyStranded(db) && Announced(db, older) && Carried(db)
  }

  ghost predicate Inv(db: Db, older: set<string>) {
    Sound(db) && Awaited(db, older, {})
  }

  // ------------------------------------------------------------------------------------------
  // Batches that end nothing and start nothing.

  /** The run keeps its identity and its liveness. */
  predicate SameRun(run: Run, after: Run) {
    && after.taskId == run.taskId && after.queue == run.queue && after.attempt == run.attempt
    && after.state.Live() == run.state.Live() && RunFits(after)
  }

  /** The task keeps its books. */
  predicate SameBooks(task: Task, after: Task) {
    && after.queue == task.queue && after.attempts == task.attempts && after.maxAttempts == task.maxAttempts
    && after.infraRetries == task.infraRetries && after.state.Live() == task.state.Live() && TaskFits(after)
  }

  ghost predicate Reshaped(db: Db, after: Db) {
    && after.runs.Keys == db.runs.Keys && after.tasks.Keys == db.tasks.Keys
    && (forall id :: id in db.runs ==> SameRun(db.runs[id], after.runs[id]))
    && (forall taskId :: taskId in db.tasks ==> SameBooks(db.tasks[taskId], after.tasks[taskId]))
    && (forall id :: id in after.runs && after.runs[id].state.Live() ==>
          after.runs[id].taskId in after.tasks && after.tasks[after.runs[id].taskId].state == after.runs[id].state)
  }

  lemma ReshapeKeepsLive(db: Db, after: Db)
    requires Sound(db) && Reshaped(db, after)
    ensures Fits(after) && Mirrored(after)
  {
    forall id, taskId ensures LiveRunOf(after, id, taskId) == LiveRunOf(db, id, taskId) {
    }
  }

  lemma ReshapeKeepsManned(db: Db, after: Db)
    requires Manned(db) && Reshaped(db, after)
    ensures Manned(after)
  {
    forall taskId | taskId in after.tasks && after.tasks[taskId].state.Live()
      ensures exists id :: LiveRunOf(after, id, taskId)
    {
      var id :| LiveRunOf(db, id, taskId);
      assert LiveRunOf(after, id, taskId);
    }
  }

  lemma ReshapeKeepsNumbers(db: Db, after: Db)
    requires Numbered(db) && Reshaped(db, after)
    ensures Numbered(after)
  {
  }

  lemma ReshapeKeepsSettled(db: Db, after: Db)
    requires Settled(db) && Reshaped(db, after)
    ensures Settled(after)
  {
    forall taskId | taskId in after.tasks && !after.tasks[taskId].state.Live()
      ensures exists id :: TopRun(after, taskId, id) && Charged(after.runs[id], after.tasks[taskId])
    {
      var id :| TopRun(db, taskId, id) && Charged(db.runs[id], db.tasks[taskId]);
      assert TopRun(after, taskId, id);
    }
  }

  lemma ReshapeKeeps(db: Db, after: Db)
    requires Sound(db) && Reshaped(db, after)
    ensures Sound(after)
  {
    ReshapeKeepsLive(db, after);
    ReshapeKeepsManned(db, after);
    ReshapeKeepsNumbers(db, after);
    ReshapeKeepsSettled(db, after);
  }

  // ------------------------------------------------------------------------------------------
  // The wake.

  /** Of a task with a woken run, the woken run is the live one. */
  lemma WokenIsTheLiveRun(db: Db, queue: string, name: EventName, id: string, woken: string)
    requires Mirrored(db) && id in db.runs && db.runs[id].state.Live()
    requires ParkedOn(db, woken, queue, name) && db.runs[woken].taskId == db.runs[id].taskId
    ensures woken == id
  {
    assert LiveRunOf(db, id, db.runs[id].taskId) && LiveRunOf(db, woken, db.runs[id].taskId);
  }

  lemma WakeMirrors(db: Db, queue: string, name: EventName, seed: nat, id: string)
    requires (queue, name) in db.events && Fits(db) && Mirrored(db) && id in db.runs && db.runs[id].state.Live()
    ensures var after := Wake(db, queue, name, seed);
      after.tasks[db.runs[id].taskId].state == after.runs[id].state
  {
    var woken := Woken(db, queue, name);
    forall other | other in woken && db.runs[other].taskId == db.runs[id].taskId ensures other == id {
      WokenIsTheLiveRun(db, queue, name, id, other);
    }
  }

  lemma WakeKeepsRun(db: Db, queue: string, name: EventName, seed: nat, id: string)
    requires (queue, name) in db.events && Fits(db) && id in db.runs
    ensures SameRun(db.runs[id], Wake(db, queue, name, seed).runs[id])
  {
  }

  lemma WakeKeepsTask(db: Db, queue: string, name: EventName, seed: nat, taskId: string)
    requires (queue, name) in db.events && Fits(db) && taskId in db.tasks
    ensures SameBooks(db.tasks[taskId], Wake(db, queue, name, seed).tasks[taskId])
  {
  }

  lemma WakeReshapes(db: Db, queue: string, name: EventName, seed: nat)
    requires (queue, name) in db.events && Fits(db) && Mirrored(db)
    ensures Reshaped(db, Wake(db, queue, name, seed))
  {
    var after := Wake(db, queue, name, seed);
    assert after.runs.Keys == db.runs.Keys && after.tasks.Keys == db.tasks.Keys;
    forall id | id in db.runs ensures SameRun(db.runs[id], after.runs[id]) {
      WakeKeepsRun(db, queue, name, seed, id);
    }
    forall taskId | taskId in db.tasks ensures SameBooks(db.tasks[taskId], after.tasks[taskId]) {
      WakeKeepsTask(db, queue, name, seed, taskId);
    }
    forall id | id in after.runs && after.runs[id].state.Live()
      ensures after.runs[id].taskId in after.tasks && after.tasks[after.runs[id].taskId].state == after.runs[id].state
    {
      WakeKeepsRun(db, queue, name, seed, id);
      WakeMirrors(db, queue, name, seed, id);
    }
  }

  lemma WakeAnswersWaits(db: Db, queue: string, name: EventName, seed: nat)
    requires (queue, name) in db.events && Fits(db) && Mirrored(db) && Wakeable(db, {(queue, name)})
    ensures Wakeable(Wake(db, queue, name, seed), {})
  {
    var after := Wake(db, queue, name, seed);
    forall key | key in after.waits
      ensures key.0 in after.runs && Sleeper(after.runs[key.0], key.1, after.waits[key])
      ensures StillAhead(after, after.waits[key])
    {
      var wait := db.waits[key];
      if wait.queue == queue && wait.event == name {
        assert ParkedOn(db, key.0, queue, name);
      }
    }
  }

  lemma WakeStrandsNobody(db: Db, queue: string, name: EventName, seed: nat)
    requires (queue, name) in db.events && Fits(db) && NobodyStranded(db) && Wakeable(db, {(queue, name)})
    ensures NobodyStranded(Wake(db, queue, name, seed))
  {
    var after := Wake(db, queue, name, seed);
    forall id | id in db.runs && id !in Woken(db, queue, name) && db.runs[id].state == Sleeping
                && db.runs[id].wakeStep.Some? && (id, db.runs[id].wakeStep.value) in db.waits
      ensures (id, db.runs[id].wakeStep.value) in after.waits
    {
    }
  }

  lemma WakeHandsOver(db: Db, older: set<string>, queue: string, name: EventName, seed: nat)
    requires (queue, name) in db.events && Fits(db) && Announced(db, older) && Carried(db)
    ensures Announced(Wake(db, queue, name, seed), older) && Carried(Wake(db, queue, name, seed))
  {
  }

  /** Telling the waiters of a stored event is all that was owed. */
  lemma WakeKeeps(db: Db, older: set<string>, queue: string, name: EventName, seed: nat)
    requires (queue, name) in db.events && Sound(db) && Awaited(db, older, {(queue, name)})
    ensures Inv(Wake(db, queue, name, seed), older)
  {
    WakeReshapes(db, queue, name, seed);
    ReshapeKeeps(db, Wake(db, queue, name, seed));
    WakeAnswersWaits(db, queue, name, seed);
    WakeStrandsNobody(db, queue, name, seed);
    WakeHandsOver(db, older, queue, name, seed);
  }

  // ------------------------------------------------------------------------------------------
  // Steps of one live run.

  /** One run and its task move together, and nothing else does. */
  function Move(db: Db, id: string, run: Run, task: Task): Db {
    db.(runs := db.runs[id := run], tasks := db.tasks[run.taskId := task])
  }

  /** A running run that stays live, or comes due at an instant, and keeps its wake or drops it. */
  ghost predicate Moves(db: Db, id: string, run: Run, task: Task) {
    && id in db.runs && db.runs[id].state == Running && Owns(db, db.runs[id])
    && SameRun(db.runs[id], run) && SameBooks(db.tasks[run.taskId], task) && task.state == run.state
    && run.state.Live() && (run.state == Running || run.availableAt.Some?)
    && (run.eventPayload.None? || (run.eventPayload == db.runs[id].eventPayload && run.wakeEvent == db.runs[id].wakeEvent))
  }

  lemma OnlyLiveRun(db: Db, id: string, other: string)
    requires Mirrored(db) && id in db.runs && other in db.runs && db.runs[id].taskId == db.runs[other].taskId
    requires db.runs[id].state.Live() && db.runs[other].state.Live()
    ensures id == other
  {
    assert LiveRunOf(db, id, db.runs[id].taskId) && LiveRunOf(db, other, db.runs[id].taskId);
  }

  lemma MoveReshapes(db: Db, id: string, run: Run, task: Task)
    requires Fits(db) && Mirrored(db) && Moves(db, id, run, task)
    ensures Reshaped(db, Move(db, id, run, task))
  {
    var after := Move(db, id, run, task);
    forall other | other in after.runs && after.runs[other].state.Live()
      ensures after.runs[other].taskId in after.tasks
      ensures after.tasks[after.runs[other].taskId].state == after.runs[other].state
    {
      if other != id && db.runs[other].taskId == run.taskId {
        OnlyLiveRun(db, id, other);
        assert false;
      }
    }
  }

  lemma MoveAnswersWaits(db: Db, id: string, run: Run, task: Task)
    requires Fits(db) && Wakeable(db, {}) && Moves(db, id, run, task)
    ensures Wakeable(Move(db, id, run, task), {})
  {
    hide RunFits, TaskFits;
  }

  lemma MoveStrandsNobody(db: Db, id: string, run: Run, task: Task)
    requires NobodyStranded(db) && Moves(db, id, run, task)
    ensures NobodyStranded(Move(db, id, run, task))
  {
    hide RunFits, TaskFits;
  }

  lemma MoveHandsOver(db: Db, older: set<string>, id: string, run: Run, task: Task)
    requires Announced(db, older) && Carried(db) && Moves(db, id, run, task)
    ensures Announced(Move(db, id, run, task), older) && Carried(Move(db, id, run, task))
  {
    hide RunFits, TaskFits;
  }

  lemma MoveAwaits(db: Db, older: set<string>, id: string, run: Run, task: Task)
    requires Fits(db) && Awaited(db, older, {}) && Moves(db, id, run, task)
    ensures Awaited(Move(db, id, run, task), older, {})
  {
    hide Fits, Wakeable, NobodyStranded, Announced, Carried, Moves;
    MoveAnswersWaits(db, id, run, task);
    MoveStrandsNobody(db, id, run, task);
    MoveHandsOver(db, older, id, run, task);
  }

  lemma MoveKeeps(db: Db, older: set<string>, id: string, run: Run, task: Task)
    requires Inv(db, older) && Moves(db, id, run, task)
    ensures Inv(Move(db, id, run, task), older)
  {
    MoveReshapes(db, id, run, task);
    ReshapeKeeps(db, Move(db, id, run, task));
    MoveAwaits(db, older, id, run, task);
  }

  // ------------------------------------------------------------------------------------------
  // Endings.

  /** The rows of a task that ends: its live run closed, and its own row terminal. */
  function Ended(db: Db, taskId: string, ended: Task, how: Closing): Db {
    var closed := CloseRuns(db, taskId, how);
    closed.(tasks := closed.tasks[taskId := ended])
  }

  /** What a batch may write over a live task whose live run is `live`, to end it. */
  ghost predicate Ends(db: Db, taskId: string, live: string, ended: Task, how: Closing) {
    && LiveRunOf(db, live, taskId) && taskId in db.tasks
    && ended.queue == db.tasks[taskId].queue && !ended.state.Live() && TaskFits(ended)
    && !how.state.Live() && Charged(db.runs[live], ended)
  }

  lemma EndKeepsFit(db: Db, taskId: string, live: string, ended: Task, how: Closing)
    requires Fits(db) && Ends(db, taskId, live, ended, how)
    ensures Fits(Ended(db, taskId, ended, how))
  {
  }

  lemma EndKeepsMirrored(db: Db, taskId: string, live: string, ended: Task, how: Closing)
    requires Fits(db) && Mirrored(db) && Ends(db, taskId, live, ended, how)
    ensures Mirrored(Ended(db, taskId, ended, how))
  {
    var after := Ended(db, taskId, ended, how);
    forall id, other ensures LiveRunOf(after, id, other) == (LiveRunOf(db, id, other) && other != taskId) {
    }
  }

  lemma EndKeepsManned(db: Db, taskId: string, live: string, ended: Task, how: Closing)
    requires Manned(db) && Ends(db, taskId, live, ended, how)
    ensures Manned(Ended(db, taskId, ended, how))
  {
    var after := Ended(db, taskId, ended, how);
    forall other | other in after.tasks && after.tasks[other].state.Live()
      ensures exists id :: LiveRunOf(after, id, other)
    {
      var id :| LiveRunOf(db, id, other);
      assert LiveRunOf(after, id, other);
    }
  }

  lemma EndKeepsNumbers(db: Db, taskId: string, live: string, ended: Task, how: Closing)
    requires Fits(db) && Numbered(db) && Ends(db, taskId, live, ended, how)
    ensures Numbered(Ended(db, taskId, ended, how))
  {
  }

  lemma EndSettles(db: Db, taskId: string, live: string, ended: Task, how: Closing)
    requires Numbered(db) && Settled(db) && Ends(db, taskId, live, ended, how)
    ensures Settled(Ended(db, taskId, ended, how))
  {
    var after := Ended(db, taskId, ended, how);
    forall other | other in after.tasks && !after.tasks[other].state.Live()
      ensures exists id :: TopRun(after, other, id) && Charged(after.runs[id], after.tasks[other])
    {
      if other == taskId {
        assert HighestOrdinal(db, live);
        assert TopRun(after, taskId, live);
      } else {
        var id :| TopRun(db, other, id) && Charged(db.runs[id], db.tasks[other]);
        assert TopRun(after, other, id);
      }
    }
  }

  lemma EndIsSound(db: Db, taskId: string, live: string, ended: Task, how: Closing)
    requires Sound(db) && Ends(db, taskId, live, ended, how)
    ensures Sound(Ended(db, taskId, ended, how))
  {
    EndKeepsFit(db, taskId, live, ended, how);
    EndKeepsMirrored(db, taskId, live, ended, how);
    EndKeepsManned(db, taskId, live, ended, how);
    EndKeepsNumbers(db, taskId, live, ended, how);
    EndSettles(db, taskId, live, ended, how);
  }

  /** Only waits for the ended task's own completion are left unanswerable. */
  lemma EndAwaits(db: Db, older: set<string>, taskId: string, live: string, ended: Task, how: Closing)
    requires Sound(db) && Awaited(db, older, {}) && Ends(db, taskId, live, ended, how)
    ensures var after := Ended(db, taskId, ended, how);
      Wakeable(after, {(ended.queue, TaskDone(taskId))}) && NobodyStranded(after) && Carried(after)
  {
    EndLeavesWaits(db, taskId, live, ended, how);
    EndStrandsNobody(db, taskId, live, ended, how);
  }

  lemma EndLeavesWaits(db: Db, taskId: string, live: string, ended: Task, how: Closing)
    requires Fits(db) && Wakeable(db, {}) && Ends(db, taskId, live, ended, how)
    ensures Wakeable(Ended(db, taskId, ended, how), {(ended.queue, TaskDone(taskId))})
  {
  }

  lemma EndStrandsNobody(db: Db, taskId: string, live: string, ended: Task, how: Closing)
    requires Fits(db) && NobodyStranded(db) && Ends(db, taskId, live, ended, how)
    ensures NobodyStranded(Ended(db, taskId, ended, how))
  {
  }

  lemma EndAnnounces(db: Db, older: set<string>, taskId: string, live: string, ended: Task, how: Closing)
    requires Announced(db, older) && Ends(db, taskId, live, ended, how)
    ensures Announced(Ended(db, taskId, ended, how), older + {taskId})
  {
  }

  // ------------------------------------------------------------------------------------------
  // Storing an event.

  function Store(db: Db, key: EventKey, event: Event): Db {
    db.(events := db.events[key := event])
  }

  /** A completion event is its task's, in its task's queue, and holds how it ended. */
  predicate Storable(db: Db, key: EventKey, event: Event) {
    key.1.TaskDone? ==>
      key.1.taskId in db.tasks && db.tasks[key.1.taskId].queue == key.0 && Decodes(event.payload)
  }

  function AnnouncedBy(key: EventKey): set<string> {
    if key.1.TaskDone? then {key.1.taskId} else {}
  }

  lemma StoreKeepsSound(db: Db, key: EventKey, event: Event)
    requires Sound(db)
    ensures Sound(Store(db, key, event))
  {
    assert Reshaped(db, Store(db, key, event));
    ReshapeKeeps(db, Store(db, key, event));
  }

  lemma StoreTells(db: Db, older: set<string>, key: EventKey, event: Event)
    requires Wakeable(db, {key}) && NobodyStranded(db) && Carried(db) && Announced(db, older + AnnouncedBy(key))
    requires key !in db.events && Storable(db, key, event)
    ensures Awaited(Store(db, key, event), older, {key})
  {
  }

  /** An ending that stores its completion event, and tells whoever waits for it. */
  lemma EndTaskKeeps(db: Db, older: set<string>, taskId: string, live: string, ended: Task, how: Closing, seed: nat)
    requires Inv(db, older) && Ends(db, taskId, live, ended, how)
    ensures Inv(EndTask(db, taskId, ended, how, seed), older)
  {
    var after := Ended(db, taskId, ended, how);
    EndIsSound(db, taskId, live, ended, how);
    EndAwaits(db, older, taskId, live, ended, how);
    EndAnnounces(db, older, taskId, live, ended, how);
    var key := (ended.queue, TaskDone(taskId));
    if key in db.events {
      KnownEndingAwaits(db, older, taskId, live, ended, how);
    } else {
      var event := Event(Encoded(OutcomeOf(ended)), db.now, By(seed, "task-done"));
      StoreKeepsSound(after, key, event);
      StoreTells(after, older, key, event);
      WakeKeeps(Store(after, key, event), older, ended.queue, TaskDone(taskId), seed);
    }
  }

  /** A task that ended before keeps its event, and nobody is waiting for it. */
  lemma KnownEndingAwaits(db: Db, older: set<string>, taskId: string, live: string, ended: Task, how: Closing)
    requires Inv(db, older) && Ends(db, taskId, live, ended, how)
    requires (ended.queue, TaskDone(taskId)) in db.events
    ensures Awaited(Ended(db, taskId, ended, how), older, {})
  {
    EndAwaits(db, older, taskId, live, ended, how);
  }
}
