/**
 * The statements of the terminal batches, each from the tables to the one table it writes. A
 * statement after a batch's first finds its rows by the stamp an earlier statement left on
 * them, and by nothing else.
 */
module Statements {
  import opened Options
  import opened Tables
  import opened Protocol

  predicate Stamped(db: Db, id: string, fence: Stamp) {
    id in db.runs && db.runs[id].stamp == fence
  }

  /** `waits-gone`: the waits of the run under the fence. */
  function WaitsGone(db: Db, id: string, fence: Stamp): map<WaitKey, Wait> {
    if Stamped(db, id, fence) then map key | key in db.waits && key.0 != id :: db.waits[key] else db.waits
  }

  /** `task-done`: the completion event of the task under the fence, unless it has one. */
  function EndingRecorded(db: Db, queue: string, taskId: string, fence: Stamp, outcome: Outcome, seed: nat)
    : map<EventKey, Event>
  {
    var key := (queue, TaskDone(taskId));
    if taskId in db.tasks && db.tasks[taskId].queue == queue && db.tasks[taskId].stamp == fence && key !in db.events
    then db.events[key := Event(Encoded(outcome), db.now, By(seed, "task-done"))] else db.events
  }

  predicate Fired(db: Db, queue: string, name: EventName, fence: Stamp) {
    (queue, name) in db.events && db.events[(queue, name)].stamp == fence
  }

  /** `wake-runs`: the runs parked on the event under the fence. */
  function RunsWoken(db: Db, queue: string, name: EventName, fence: Stamp, seed: nat): map<string, Run> {
    map id | id in db.runs ::
      if Fired(db, queue, name, fence) && ParkedOn(db, id, queue, name)
      then db.runs[id].(state := Pending, availableAt := Some(db.events[(queue, name)].emittedAt),
                        eventPayload := Some(db.events[(queue, name)].payload), stamp := By(seed, "wake-runs"))
      else db.runs[id]
  }

  /** The runs `wake-runs` stamped, as the three statements after it find them. */
  predicate JustWoken(db: Db, id: string, queue: string, name: EventName, seed: nat) {
    && Stamped(db, id, By(seed, "wake-runs"))
    && db.runs[id].queue == queue && db.runs[id].wakeEvent == Some(name) && db.runs[id].state == Pending
  }

  /** `wake-tasks`. */
  function TasksWoken(db: Db, queue: string, name: EventName, seed: nat): map<string, Task> {
    map taskId | taskId in db.tasks ::
      if db.tasks[taskId].state.Live()
         && exists id :: id in db.runs && JustWoken(db, id, queue, name, seed) && db.runs[id].taskId == taskId
      then db.tasks[taskId].(state := Pending, stamp := By(seed, "wake-tasks")) else db.tasks[taskId]
  }

  /** `woken-waits-gone`. */
  function WokenWaitsGone(db: Db, queue: string, name: EventName, seed: nat): map<WaitKey, Wait> {
    map key | key in db.waits && !(JustWoken(db, key.0, queue, name, seed) && db.waits[key].event == name) :: db.waits[key]
  }

  /** `wake-finished`: takes the stamp of `wake-runs` off again. */
  function RunsSealed(db: Db, queue: string, name: EventName, seed: nat): map<string, Run> {
    map id | id in db.runs ::
      if JustWoken(db, id, queue, name, seed) then db.runs[id].(stamp := By(seed, "wake-finished")) else db.runs[id]
  }

  /** The four statements in order. */
  function Told(db: Db, queue: string, name: EventName, fence: Stamp, seed: nat): Db {
    var woken := db.(runs := RunsWoken(db, queue, name, fence, seed));
    var mirrored := woken.(tasks := TasksWoken(woken, queue, name, seed));
    var reaped := mirrored.(waits := WokenWaitsGone(mirrored, queue, name, seed));
    reaped.(runs := RunsSealed(reaped, queue, name, seed))
  }

  /** No run carries the stamp of this invocation's `wake-runs`: none was woken, or the seal took it off. */
  ghost predicate NoneHalfWoken(db: Db, seed: nat) {
    forall id :: id in db.runs ==> db.runs[id].stamp != By(seed, "wake-runs")
  }

  lemma JustWokenAreTheParked(db: Db, queue: string, name: EventName, fence: Stamp, seed: nat, id: string)
    requires NoneHalfWoken(db, seed)
    ensures JustWoken(db.(runs := RunsWoken(db, queue, name, fence, seed)), id, queue, name, seed)
      <==> Fired(db, queue, name, fence) && ParkedOn(db, id, queue, name)
  {
  }

  lemma UnfiredTellsNobody(db: Db, queue: string, name: EventName, fence: Stamp, seed: nat)
    requires NoneHalfWoken(db, seed) && !Fired(db, queue, name, fence)
    ensures Told(db, queue, name, fence, seed) == db
  {
    var woken := db.(runs := RunsWoken(db, queue, name, fence, seed));
    assert woken.runs == db.runs;
    forall id ensures !JustWoken(woken, id, queue, name, seed) {
      JustWokenAreTheParked(db, queue, name, fence, seed, id);
    }
    assert TasksWoken(woken, queue, name, seed) == db.tasks;
    assert WokenWaitsGone(woken, queue, name, seed) == db.waits;
    assert RunsSealed(woken, queue, name, seed) == db.runs;
  }

  lemma FiredWakesRuns(db: Db, queue: string, name: EventName, fence: Stamp, seed: nat)
    requires NoneHalfWoken(db, seed) && Fired(db, queue, name, fence)
    ensures Told(db, queue, name, fence, seed).runs == Wake(db, queue, name, seed).runs
  {
    var woken := db.(runs := RunsWoken(db, queue, name, fence, seed));
    forall id ensures JustWoken(woken, id, queue, name, seed) == ParkedOn(db, id, queue, name) {
      JustWokenAreTheParked(db, queue, name, fence, seed, id);
    }
  }

  lemma FiredWakesTasks(db: Db, queue: string, name: EventName, fence: Stamp, seed: nat)
    requires NoneHalfWoken(db, seed) && Fired(db, queue, name, fence)
    ensures Told(db, queue, name, fence, seed).tasks == Wake(db, queue, name, seed).tasks
  {
    var woken := db.(runs := RunsWoken(db, queue, name, fence, seed));
    forall id ensures JustWoken(woken, id, queue, name, seed) == ParkedOn(db, id, queue, name) {
      JustWokenAreTheParked(db, queue, name, fence, seed, id);
    }
    forall taskId | taskId in db.tasks
      ensures TasksWoken(woken, queue, name, seed)[taskId] == Wake(db, queue, name, seed).tasks[taskId]
    {
      if exists id :: id in db.runs && ParkedOn(db, id, queue, name) && db.runs[id].taskId == taskId {
        var id :| id in db.runs && ParkedOn(db, id, queue, name) && db.runs[id].taskId == taskId;
        assert id in Woken(db, queue, name);
        assert id in woken.runs && JustWoken(woken, id, queue, name, seed) && woken.runs[id].taskId == taskId;
      }
    }
  }

  lemma FiredReapsWaits(db: Db, queue: string, name: EventName, fence: Stamp, seed: nat)
    requires NoneHalfWoken(db, seed) && Fired(db, queue, name, fence)
    ensures Told(db, queue, name, fence, seed).waits == Wake(db, queue, name, seed).waits
  {
    var woken := db.(runs := RunsWoken(db, queue, name, fence, seed));
    forall id ensures JustWoken(woken, id, queue, name, seed) == ParkedOn(db, id, queue, name) {
      JustWokenAreTheParked(db, queue, name, fence, seed, id);
    }
  }

  /** Statement by statement the waiters are told at once, and only by the batch that stored the event. */
  lemma TellingIsWaking(db: Db, queue: string, name: EventName, fence: Stamp, seed: nat)
    requires NoneHalfWoken(db, seed)
    ensures Told(db, queue, name, fence, seed)
         == if Fired(db, queue, name, fence) then Wake(db, queue, name, seed) else db
  {
    if Fired(db, queue, name, fence) {
      FiredWakesRuns(db, queue, name, fence, seed);
      FiredWakesTasks(db, queue, name, fence, seed);
      FiredReapsWaits(db, queue, name, fence, seed);
    } else {
      UnfiredTellsNobody(db, queue, name, fence, seed);
    }
  }
}
