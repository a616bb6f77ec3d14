/** What an instant a step writes means to the step that comes later: a lease, a sleep, a deadline. */
module ProtocolTiming {
  import opened Options
  import opened Tables
  import opened ProtocolHistory
  import opened ProtocolRuns
  import opened ProtocolEffects
  import opened ProtocolExact
  import Protocol

  /** The world after the step and a while. */
  function Later(w: World, step: Step, ms: nat): World {
    Next(Next(w, step), Tick(ms))
  }

  /** A step, a while, and the step that comes then. */
  lemma StepThenStep(now: int, steps: seq<Step>, step: Step, ms: nat, next: Step)
    ensures var w := After(Empty(now), steps);
      && Does(w, step, Next(w, step).db)
      && Later(w, step, ms).db == Next(w, step).db.(now := Next(w, step).db.now + ms)
      && Does(Later(w, step, ms), next, Next(Later(w, step, ms), next).db)
  {
    hide Does, WorldInv;
    var w := After(Empty(now), steps);
    ReachableIsSound(now, steps);
    StepIs(w, step);
    StepKeeps(w, step);
    StepKeeps(Next(w, step), Tick(ms));
    StepIs(Later(w, step, ms), next);
  }

  /** A heartbeat or a checkpoint under this claim, with what it asks the lease to be. */
  predicate Extends(step: Step, queue: string, id: string, token: string, extendMs: nat) {
    || step == Heartbeats(queue, id, token, extendMs)
    || (step.Checkpoints? && step == Checkpoints(queue, id, token, extendMs, step.owed))
  }

  /** A sweep that takes the claim leaves the run failed. */
  lemma GivingUpFails(db: Db, after: Db, id: string, nextId: string, reason: string, charged: nat)
    requires id in db.runs && db.runs[id].state == Running && db.runs[id].taskId in db.tasks
    requires GivesUp(db, after, id, nextId, reason, charged)
    ensures id in after.runs && after.runs[id].state == Failed
  {
    assert db.runs[id].state.Live();
  }

  lemma SweepTakesWhatRanOut(db: Db, queue: string, id: string, gen: nat, nextId: string, swept: Db)
    requires ClaimSweepDoes(db, queue, id, gen, nextId, swept)
    requires id in db.runs && db.runs[id].queue == queue && db.runs[id].state == Running && db.runs[id].claimGen == gen
    requires db.runs[id].activatedGen == gen && nextId !in db.runs && db.runs[id].taskId in db.tasks
    ensures RanOut(db, queue, id, gen) ==> id in swept.runs && swept.runs[id].state == Failed
    ensures !RanOut(db, queue, id, gen) ==> swept == db
  {
    hide GivesUp;
    if RanOut(db, queue, id, gen) && db.tasks[db.runs[id].taskId].infraRetries >= 20 {
      GivingUpFails(db, swept, id, nextId, "{\"name\":\"$InfraRetriesExhausted\"}", 0);
    }
  }

  /** A lease extended by a step of the claim ends when the step said, and the rest of the claim is as it was. */
  lemma Extended(w: World, beat: Step, queue: string, id: string, token: string, extendMs: nat, after: Db)
    requires Holds(w.db, queue, id, token) && Extends(beat, queue, id, token, extendMs) && Does(w, beat, after)
    ensures after.now == w.db.now && after.runs.Keys == w.db.runs.Keys && w.db.runs[id].taskId in after.tasks
    ensures Bare(after.runs[id]) == Bare(w.db.runs[id].(expiresAt := Some(w.db.now + extendMs)))
  {
    if beat.Heartbeats? {
      assert HeartbeatDoes(w.db, queue, id, token, extendMs, after);
    } else {
      assert CheckpointDoes(w.db, queue, id, token, extendMs, beat.owed, after);
    }
  }

  /**
   * A started claim extended by so many milliseconds is its own for that long, and for no longer:
   * the sweep that comes sooner changes nothing, and the sweep that comes then takes the run.
   */
  lemma LeaseLasts(now: int, steps: seq<Step>, beat: Step, queue: string, id: string, token: string, extendMs: nat, ms: nat,
                   nextId: string)
    requires var db := After(Empty(now), steps).db;
      Holds(db, queue, id, token) && db.runs[id].activatedGen == db.runs[id].claimGen && nextId !in db.runs
    requires Extends(beat, queue, id, token, extendMs)
    ensures var w := After(Empty(now), steps);
      var found := Later(w, beat, ms);
      var swept := Next(found, SweepsClaim(queue, id, w.db.runs[id].claimGen, nextId)).db;
      if ms < extendMs then swept == found.db else id in swept.runs && swept.runs[id].state == Failed
  {
    hide After, Next, Later, Extends, ClaimSweepDoes;
    var w := After(Empty(now), steps);
    var gen := w.db.runs[id].claimGen;
    StepThenStep(now, steps, beat, ms, SweepsClaim(queue, id, gen, nextId));
    Extended(w, beat, queue, id, token, extendMs, Next(w, beat).db);
    var found := Later(w, beat, ms);
    assert Bare(found.db.runs[id]).expiresAt == Some(w.db.now + extendMs) && Bare(found.db.runs[id]).claimGen == gen;
    SweepTakesWhatRanOut(found.db, queue, id, gen, nextId, Next(found, SweepsClaim(queue, id, gen, nextId)).db);
  }

  // ------------------------------------------------------------------------------------------
  // When a parked run runs again.

  /** A token of nobody's takes the one run. */
  predicate TakesOne(db: Db, queue: string, token: string, leaseMs: nat) {
    && leaseMs > 0
    && forall id :: id in db.runs && db.runs[id].queue == queue && db.runs[id].state == Running
         ==> db.runs[id].claimedBy != Some(token)
  }

  lemma TakesTheDue(db: Db, queue: string, id: string, token: string, leaseMs: nat, after: Db)
    requires TakesOne(db, queue, token, leaseMs) && ClaimDoes(db, queue, token, leaseMs, 1, {id}, after)
    requires id in db.runs && db.runs[id].state != Running
    ensures if DueToRun(db, queue, id) then id in after.runs && Bare(after.runs[id]).state == Running else after == db
  {
    assert id in {id};
    assert MayTake(db, queue, token, leaseMs, 1, {id}) == DueToRun(db, queue, id);
  }

  /** A step of the run's claim that parks it until an instant. */
  predicate ParksUntil(db: Db, step: Step, queue: string, id: string, token: string, wakeAt: int) {
    || (step.Suspends? && step == Suspends(queue, id, token, wakeAt, step.marker)
        && Holds(db, queue, id, token) && !Overdue(db.tasks[db.runs[id].taskId], db.now)
        && (step.marker ==> db.tasks[db.runs[id].taskId].saga.None?))
    || (step.Defers? && step == Defers(queue, id, token, step.gen, wakeAt) && Unstarted(db, queue, id, token, step.gen))
  }

  lemma Parked(w: World, step: Step, queue: string, id: string, token: string, wakeAt: int, after: Db)
    requires ParksUntil(w.db, step, queue, id, token, wakeAt) && Does(w, step, after)
    ensures var run := w.db.runs[id];
      && after.now == w.db.now && after.runs.Keys == w.db.runs.Keys && id in after.runs && run.taskId in after.tasks
      && after.runs[id].taskId == run.taskId && after.runs[id].queue == queue
      && (after.runs[id].state == Pending || after.runs[id].state == Sleeping) && after.runs[id].availableAt == Some(wakeAt)
      && after.tasks[run.taskId].cancelAt == w.db.tasks[run.taskId].cancelAt
      && (forall other :: other in w.db.runs && other != id ==> after.runs[other] == w.db.runs[other])
  {
    if step.Suspends? {
      assert SuspendDoes(w.db, queue, id, token, wakeAt, step.marker, after);
    } else {
      assert DeferDoes(w.db, queue, id, token, step.gen, wakeAt, after);
    }
    assert Bare(after.runs[id]).availableAt == Some(wakeAt);
    assert BareTask(after.tasks[w.db.runs[id].taskId]).cancelAt == w.db.tasks[w.db.runs[id].taskId].cancelAt;
  }

  /** A parked run is taken from the instant it was parked until, and no sooner, while its deadline is ahead. */
  lemma SleepLasts(now: int, steps: seq<Step>, step: Step, queue: string, id: string, token: string, wakeAt: int, ms: nat,
                   other: string, leaseMs: nat)
    requires var db := After(Empty(now), steps).db;
      ParksUntil(db, step, queue, id, token, wakeAt) && TakesOne(db, queue, other, leaseMs)
    ensures var w := After(Empty(now), steps);
      var deadline := w.db.tasks[w.db.runs[id].taskId].cancelAt;
      var found := Later(w, step, ms);
      var taken := Next(found, Claims(queue, other, leaseMs, 1, {id})).db;
      if wakeAt <= w.db.now + ms && (deadline.Some? ==> w.db.now + ms < deadline.value)
      then id in taken.runs && taken.runs[id].state == Running else taken == found.db
  {
    hide After, Next, Later, ClaimDoes, ParksUntil;
    var w := After(Empty(now), steps);
    StepThenStep(now, steps, step, ms, Claims(queue, other, leaseMs, 1, {id}));
    Parked(w, step, queue, id, token, wakeAt, Next(w, step).db);
    var found := Later(w, step, ms);
    TakesTheDue(found.db, queue, id, other, leaseMs, Next(found, Claims(queue, other, leaseMs, 1, {id})).db);
  }

  /** A run parked on an event is taken unanswered when its timeout has passed, and never if it has none. */
  lemma AwaitTimesOut(now: int, steps: seq<Step>, a: Protocol.Await, name: EventName, timeoutMs: Option<nat>, ms: nat,
                      other: string, leaseMs: nat)
    requires var db := After(Empty(now), steps).db; MayWait(db, a, name) && TakesOne(db, a.queue, other, leaseMs)
    ensures var w := After(Empty(now), steps);
      var deadline := w.db.tasks[a.taskId].cancelAt;
      var found := Later(w, Awaits(a, name, timeoutMs), ms);
      var taken := Next(found, Claims(a.queue, other, leaseMs, 1, {a.runId})).db;
      if timeoutMs.Some? && timeoutMs.value <= ms && (deadline.Some? ==> w.db.now + ms < deadline.value)
      then a.runId in taken.runs && taken.runs[a.runId].state == Running else taken == found.db
  {
    hide After, Next, Later, ClaimDoes, MayWait, AwaitDoes;
    var w := After(Empty(now), steps);
    var step := Awaits(a, name, timeoutMs);
    StepThenStep(now, steps, step, ms, Claims(a.queue, other, leaseMs, 1, {a.runId}));
    ParkedOnEvent(w.db, a, name, timeoutMs, Next(w, step).db);
    var found := Later(w, step, ms);
    TakesTheDue(found.db, a.queue, a.runId, other, leaseMs, Next(found, Claims(a.queue, other, leaseMs, 1, {a.runId})).db);
  }

  lemma ParkedOnEvent(db: Db, a: Protocol.Await, name: EventName, timeoutMs: Option<nat>, parked: Db)
    requires MayWait(db, a, name) && AwaitDoes(db, a, name, timeoutMs, parked)
    ensures parked.now == db.now && parked.runs.Keys == db.runs.Keys && parked.tasks.Keys == db.tasks.Keys
    ensures a.runId in parked.runs && a.taskId in parked.tasks
    ensures parked.runs[a.runId].state == Sleeping && parked.runs[a.runId].taskId == a.taskId
    ensures parked.runs[a.runId].queue == a.queue
    ensures parked.runs[a.runId].availableAt == if timeoutMs.Some? then Some(db.now + timeoutMs.value) else None
    ensures parked.tasks[a.taskId].cancelAt == db.tasks[a.taskId].cancelAt
    ensures forall id :: id in db.runs && id != a.runId ==> parked.runs[id] == db.runs[id]
  {
    assert Bare(parked.runs[a.runId]).state == Sleeping && Bare(parked.runs[a.runId]).taskId == a.taskId;
    assert BareTask(parked.tasks[a.taskId]).cancelAt == db.tasks[a.taskId].cancelAt;
  }

  /** A task's first run is taken once its delay is over, and only before its start deadline. */
  lemma StartIsInTime(now: int, steps: seq<Step>, s: Protocol.Spawning, ms: nat, token: string, leaseMs: nat)
    requires var db := After(Empty(now), steps).db; HasRoom(db, s) && TakesOne(db, s.queue, token, leaseMs)
    ensures var w := After(Empty(now), steps);
      var found := Later(w, Spawns(s), ms);
      var taken := Next(found, Claims(s.queue, token, leaseMs, 1, {s.runId})).db;
      if s.delayMs <= ms && (s.maxDelayMs.Some? ==> ms < s.delayMs + s.maxDelayMs.value)
      then s.runId in taken.runs && taken.runs[s.runId].state == Running else taken == found.db
  {
    hide After, Next, Later, ClaimDoes, HasRoom;
    var w := After(Empty(now), steps);
    StepThenStep(now, steps, Spawns(s), ms, Claims(s.queue, token, leaseMs, 1, {s.runId}));
    assert SpawnDoes(w.db, s, Next(w, Spawns(s)).db);
    RoomIsNew(w.db, s);
    var spawned := Next(w, Spawns(s)).db;
    assert Bare(spawned.runs[s.runId]).state == Pending && Bare(spawned.runs[s.runId]).queue == s.queue;
    assert BareTask(spawned.tasks[s.taskId]).queue == s.queue;
    var found := Later(w, Spawns(s), ms);
    TakesTheDue(found.db, s.queue, s.runId, token, leaseMs, Next(found, Claims(s.queue, token, leaseMs, 1, {s.runId})).db);
  }

  lemma RoomIsNew(db: Db, s: Protocol.Spawning)
    requires HasRoom(db, s)
    ensures s.runId !in db.runs && s.taskId !in db.tasks
  {
  }

  // ------------------------------------------------------------------------------------------
  // Deadlines.

  lemma CancelledIsSeen(db: Db, queue: string, taskId: string, after: Db)
    requires CancelDoes(db, queue, taskId, true, false, after)
    requires taskId in db.tasks && db.tasks[taskId].queue == queue && InProgress(db.tasks[taskId].state)
    ensures Overdue(db.tasks[taskId], db.now) ==> taskId in after.tasks && after.tasks[taskId].state == Cancelled
    ensures !Overdue(db.tasks[taskId], db.now) ==> after == db
  {
    if Overdue(db.tasks[taskId], db.now) {
      assert BareTask(after.tasks[taskId]).state == Cancelled;
    }
  }

  /**
   * From the first start of all a task has its duration and no more: the sweep for deadlines
   * cancels it then, no sooner, and never if it has none, whatever its start deadline was.
   */
  lemma DurationRunsFromTheFirstStart(now: int, steps: seq<Step>, queue: string, id: string, token: string, gen: nat, ms: nat)
    requires Unstarted(After(Empty(now), steps).db, queue, id, token, gen)
    ensures var w := After(Empty(now), steps);
      var taskId := w.db.runs[id].taskId;
      var task := w.db.tasks[taskId];
      var first := if task.firstStartedAt.Some? then task.firstStartedAt.value else w.db.now;
      var found := Later(w, Activates(queue, id, token, gen), ms);
      var swept := Next(found, Cancels(queue, taskId, true, false)).db;
      if task.maxDurationMs.Some? && first + task.maxDurationMs.value <= w.db.now + ms
      then taskId in swept.tasks && swept.tasks[taskId].state == Cancelled else swept == found.db
  {
    hide After, Next, Later, CancelDoes, WorldInv;
    var w := After(Empty(now), steps);
    var step := Activates(queue, id, token, gen);
    var taskId := w.db.runs[id].taskId;
    StepThenStep(now, steps, step, ms, Cancels(queue, taskId, true, false));
    ReachableIsSound(now, steps);
    StartedTaskIsRunning(w, queue, id);
    var started := Next(w, step).db;
    assert ActivateDoes(w.db, queue, id, token, gen, started);
    assert BareTask(started.tasks[taskId]).queue == queue && BareTask(started.tasks[taskId]).state == Running;
    var found := Later(w, step, ms);
    CancelledIsSeen(found.db, queue, taskId, Next(found, Cancels(queue, taskId, true, false)).db);
  }

  lemma StartedTaskIsRunning(w: World, queue: string, id: string)
    requires WorldInv(w) && id in w.db.runs && w.db.runs[id].state == Running && w.db.runs[id].queue == queue
    ensures w.db.runs[id].taskId in w.db.tasks
    ensures w.db.tasks[w.db.runs[id].taskId].state == Running && w.db.tasks[w.db.runs[id].taskId].queue == queue
  {
    hide StampsAreSpent, ClaimsBounded;
    LiveIsCurrent(w.db, id);
  }

  /** A claim whose launch was lost is swept when the lease it asked for has passed, and no sooner. */
  lemma ClaimLasts(now: int, steps: seq<Step>, queue: string, id: string, token: string, leaseMs: nat, ms: nat, passId: string)
    requires var db := After(Empty(now), steps).db;
      DueToRun(db, queue, id) && TakesOne(db, queue, token, leaseMs) && passId !in db.runs
    ensures var w := After(Empty(now), steps);
      var found := Later(w, Claims(queue, token, leaseMs, 1, {id}), ms);
      var swept := Next(found, SweepsLaunch(queue, id, w.db.runs[id].claimGen + 1, passId)).db;
      if ms < leaseMs then swept == found.db else id in swept.runs && swept.runs[id].state != Running
  {
    hide After, Next, Later, LaunchSweepDoes, WorldInv, ClaimDoes;
    var w := After(Empty(now), steps);
    var step := Claims(queue, token, leaseMs, 1, {id});
    var gen := w.db.runs[id].claimGen + 1;
    StepThenStep(now, steps, step, ms, SweepsLaunch(queue, id, gen, passId));
    ReachableIsSound(now, steps);
    ActivatedIsClaimed(w, id);
    TakenFor(w.db, queue, id, token, leaseMs, Next(w, step).db);
    var found := Later(w, step, ms);
    LostLaunchIsSeen(found.db, queue, id, gen, passId, Next(found, SweepsLaunch(queue, id, gen, passId)).db);
  }

  lemma TakenFor(db: Db, queue: string, id: string, token: string, leaseMs: nat, taken: Db)
    requires ClaimDoes(db, queue, token, leaseMs, 1, {id}, taken) && DueToRun(db, queue, id) && TakesOne(db, queue, token, leaseMs)
    ensures taken.now == db.now && taken.runs.Keys == db.runs.Keys && taken.tasks.Keys == db.tasks.Keys && id in taken.runs
    ensures taken.runs[id].state == Running && taken.runs[id].queue == queue && taken.runs[id].taskId == db.runs[id].taskId
    ensures taken.runs[id].expiresAt == Some(db.now + leaseMs)
    ensures taken.runs[id].claimGen == db.runs[id].claimGen + 1 && taken.runs[id].activatedGen == db.runs[id].activatedGen
  {
    assert id in {id} && MayTake(db, queue, token, leaseMs, 1, {id});
    assert Bare(taken.runs[id]) == Bare(db.runs[id].(state := Running, claimedBy := Some(token),
                                                     claimGen := db.runs[id].claimGen + 1, leaseMs := leaseMs,
                                                     expiresAt := Some(db.now + leaseMs)));
  }

  lemma ActivatedIsClaimed(w: World, id: string)
    requires WorldInv(w) && id in w.db.runs
    ensures w.db.runs[id].activatedGen <= w.db.runs[id].claimGen
  {
    hide StampsAreSpent, ClaimsBounded;
  }

  lemma LostLaunchIsSeen(db: Db, queue: string, id: string, gen: nat, passId: string, after: Db)
    requires LaunchSweepDoes(db, queue, id, gen, passId, after) && passId !in db.runs
    requires id in db.runs && db.runs[id].activatedGen < gen
    ensures RanOut(db, queue, id, gen) ==> id in after.runs && after.runs[id].state != Running
    ensures !RanOut(db, queue, id, gen) ==> after == db
  {
    hide GivesUp;
    if RanOut(db, queue, id, gen) {
      if db.runs[id].relaunches < 5 {
        assert Bare(after.runs[id]).state == Pending;
      } else {
        GivingUpFails(db, after, id, passId, "{\"name\":\"$RelaunchCapExhausted\"}", 0);
      }
    }
  }
}
