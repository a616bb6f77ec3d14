/**
 * Whole histories: any batches, in any order, from any callers, each under a seed no other
 * batch uses. A zombie is a caller whose token the rows no longer hold, a crash is a batch that
 * never came, and an older build may end a task that nobody waits for.
 */
module ProtocolHistory {
  import opened Options
  import opened Tables
  import opened Protocol
  import opened ProtocolInvariant
  import opened ProtocolStarts

  datatype Step =
    | Tick(ms: nat)
    | Spawns(s: Spawning)
    | Claims(queue: string, token: string, leaseMs: nat, limit: nat, picked: set<string>)
    | Activates(queue: string, id: string, token: string, gen: nat)
    | Heartbeats(queue: string, id: string, token: string, extendMs: nat)
    | Expires(queue: string, id: string, token: string)
    | Checkpoints(queue: string, id: string, token: string, extendMs: nat, owed: bool)
    | Suspends(queue: string, id: string, token: string, wakeAt: int, marker: bool)
    | Defers(queue: string, id: string, token: string, gen: nat, wakeAt: int)
    | Completes(queue: string, id: string, token: string, result: string)
    | Fails(f: Failure)
    | SweepsLaunch(queue: string, id: string, gen: nat, passId: string)
    | SweepsClaim(queue: string, id: string, gen: nat, nextId: string)
    | Cancels(queue: string, taskId: string, deadlineOnly: bool, unlessSaga: bool)
    | Revives(queue: string, taskId: string, top: string, runId: string)
    | Emits(queue: string, name: string, text: string)
    | Awaits(a: Await, event: EventName, timeoutMs: Option<nat>)
    | Reads(child: string)
    | Records(a: Await, read: Read)
    | OlderBuild(taskId: string, state: State, text: string)

  /** What the read of an awaited child saw: its row's stamp, and how it had ended. */
  datatype Read = Read(child: string, stamp: Stamp, outcome: Outcome)

  /** `older` are the tasks an older build ended, `asked` the limit of each token's last claim. */
  datatype World = World(db: Db, older: set<string>, seen: set<Read>, asked: map<(string, string), nat>, seed: nat)

  function Apply(w: World, step: Step): Db {
    var db, seed := w.db, w.seed;
    match step
    case Tick(ms) => Later(db, ms)
    case Spawns(s) => Spawn(db, s, seed)
    case Claims(queue, token, leaseMs, limit, picked) => Claim(db, queue, token, leaseMs, limit, picked, seed)
    case Activates(queue, id, token, gen) => Activate(db, queue, id, token, gen, seed)
    case Heartbeats(queue, id, token, extendMs) => Heartbeat(db, queue, id, token, extendMs, seed)
    case Expires(queue, id, token) => ExpireLeaseNow(db, queue, id, token)
    case Checkpoints(queue, id, token, extendMs, owed) => SetCheckpoint(db, queue, id, token, extendMs, owed, seed)
    case Suspends(queue, id, token, wakeAt, marker) => Suspend(db, queue, id, token, wakeAt, marker, seed)
    case Defers(queue, id, token, gen, wakeAt) => DeferLaunch(db, queue, id, token, gen, wakeAt, seed)
    case Completes(queue, id, token, result) => Complete(db, queue, id, token, result, seed)
    case Fails(f) => Fail(db, f, seed)
    case SweepsLaunch(queue, id, gen, passId) => SweepLostLaunch(db, queue, id, gen, passId, seed)
    case SweepsClaim(queue, id, gen, nextId) => SweepClaimTimeout(db, queue, id, gen, nextId, seed)
    case Cancels(queue, taskId, deadlineOnly, unlessSaga) => Cancel(db, queue, taskId, deadlineOnly, unlessSaga, seed)
    case Revives(queue, taskId, top, runId) => RetryTask(db, queue, taskId, top, runId, seed)
    case Emits(queue, name, text) => EmitEvent(db, queue, name, text, seed)
    case Awaits(a, event, timeoutMs) => AwaitEvent(db, a, event, timeoutMs, seed)
    case Reads(child) => db
    case Records(a, read) =>
      if read in w.seen && !read.outcome.state.Live()
      then RecordTaskDone(db, a, read.child, read.stamp, read.outcome, seed) else db
    case OlderBuild(taskId, state, text) => OlderBuildEnds(db, taskId, state, text, seed)
  }

  function OlderAfter(w: World, step: Step): set<string> {
    match step
    case OlderBuild(taskId, state, _) => OlderEnding(w.db, w.older, taskId, state)
    case Revives(queue, taskId, top, runId) =>
      if RetryAdmits(w.db, queue, taskId, top, runId) then w.older - {taskId} else w.older
    case _ => w.older
  }

  function ReadsAfter(w: World, step: Step): set<Read> {
    match step
    case Reads(child) =>
      if child in w.db.tasks then w.seen + {Read(child, w.db.tasks[child].stamp, OutcomeOf(w.db.tasks[child]))}
      else w.seen
    case _ => w.seen
  }

  function AskedAfter(w: World, step: Step): map<(string, string), nat> {
    match step
    case Claims(queue, token, leaseMs, limit, picked) =>
      if ClaimAdmits(w.db, queue, token, leaseMs, limit, picked) then w.asked[(queue, token) := limit] else w.asked
    case _ => w.asked
  }

  function Next(w: World, step: Step): World {
    World(Apply(w, step), OlderAfter(w, step), ReadsAfter(w, step), AskedAfter(w, step), w.seed + 1)
  }

  function After(w: World, steps: seq<Step>): World
    decreases |steps|
  {
    if steps == [] then w else After(Next(w, steps[0]), steps[1..])
  }

  lemma {:induction false} AfterBoth(w: World, some: seq<Step>, more: seq<Step>)
    ensures After(w, some + more) == After(After(w, some), more)
    decreases |some|
  {
    if some == [] {
      assert some + more == more;
    } else {
      assert (some + more)[0] == some[0] && (some + more)[1..] == some[1..] + more;
      AfterBoth(Next(w, some[0]), some[1..], more);
    }
  }

  /** An empty database, before its first batch. */
  function Empty(now: int): World {
    World(Db(now, map[], map[], map[], map[]), {}, {}, map[], 0)
  }

  // ------------------------------------------------------------------------------------------
  // What one batch does to rows it found.

  predicate StampedBefore(stamp: Stamp, seed: nat) {
    stamp.By? ==> stamp.seed < seed
  }

  /** A task's outcome changes only under the stamp of the batch that changes it. */
  predicate TaskGrows(task: Task, after: Task, seed: nat) {
    && after.queue == task.queue
    && ((after.stamp == task.stamp && OutcomeOf(after) == OutcomeOf(task)) || (after.stamp.By? && after.stamp.seed == seed))
  }

  ghost predicate TasksGrow(db: Db, after: Db, seed: nat) {
    && (forall taskId :: taskId in db.tasks ==>
          taskId in after.tasks && TaskGrows(db.tasks[taskId], after.tasks[taskId], seed))
    && (forall taskId :: taskId in after.tasks && taskId !in db.tasks ==>
          after.tasks[taskId].stamp.By? && after.tasks[taskId].stamp.seed == seed)
  }

  /** An event is never lost, and its payload never changes. */
  ghost predicate EventsGrow(db: Db, after: Db) {
    forall key :: key in db.events ==> key in after.events && after.events[key].payload == db.events[key].payload
  }

  /** A run is never lost nor its activation undone, no batch but a claim gives it a claim, and only a wait of its own gets it a payload. */
  ghost predicate RunGrows(db: Db, id: string, run: Run, after: Run) {
    && after.taskId == run.taskId && after.queue == run.queue && after.claimGen == run.claimGen
    && run.activatedGen <= after.activatedGen
    && (after.state == Running ==> run.state == Running && after.claimedBy == run.claimedBy)
    && (after.eventPayload == run.eventPayload || after.eventPayload.None? || HasWait(db, id))
  }

  ghost predicate HasWait(db: Db, id: string) {
    exists key :: key in db.waits && key.0 == id
  }

  ghost predicate RunsGrow(db: Db, after: Db) {
    && (forall id :: id in db.runs ==> id in after.runs && RunGrows(db, id, db.runs[id], after.runs[id]))
    && (forall id :: id in after.runs && id !in db.runs ==> after.runs[id].state != Running)
  }

  ghost predicate WaitsShrink(db: Db, after: Db) {
    forall key :: key in after.waits ==> key in db.waits
  }

  ghost predicate Grows(db: Db, after: Db, seed: nat) {
    TasksGrow(db, after, seed) && EventsGrow(db, after) && RunsGrow(db, after) && WaitsShrink(db, after)
  }

  lemma GrowsOn(db: Db, middle: Db, after: Db, seed: nat)
    requires Grows(db, middle, seed) && Grows(middle, after, seed)
    ensures Grows(db, after, seed)
  {
    forall id | id in db.runs ensures id in after.runs && RunGrows(db, id, db.runs[id], after.runs[id]) {
      assert RunGrows(db, id, db.runs[id], middle.runs[id]) && RunGrows(middle, id, middle.runs[id], after.runs[id]);
    }
  }

  lemma WakeGrows(db: Db, queue: string, name: EventName, seed: nat)
    requires (queue, name) in db.events
    ensures Grows(db, Wake(db, queue, name, seed), seed)
  {
  }

  lemma StoreGrows(db: Db, key: EventKey, event: Event, seed: nat)
    requires key in db.events ==> event.payload == db.events[key].payload
    ensures Grows(db, Store(db, key, event), seed)
  {
  }

  lemma EndedGrows(db: Db, taskId: string, ended: Task, how: Closing, seed: nat)
    requires taskId in db.tasks && TaskGrows(db.tasks[taskId], ended, seed) && how.state != Running
    ensures Grows(db, Ended(db, taskId, ended, how), seed)
  {
  }

  lemma EndTaskGrows(db: Db, taskId: string, ended: Task, how: Closing, seed: nat)
    requires taskId in db.tasks && TaskGrows(db.tasks[taskId], ended, seed) && how.state != Running
    ensures Grows(db, EndTask(db, taskId, ended, how, seed), seed)
  {
    var closed := Ended(db, taskId, ended, how);
    var key := (ended.queue, TaskDone(taskId));
    EndedGrows(db, taskId, ended, how, seed);
    if key !in db.events {
      var event := Event(Encoded(OutcomeOf(ended)), db.now, By(seed, "task-done"));
      StoreGrows(closed, key, event, seed);
      WakeGrows(Store(closed, key, event), ended.queue, TaskDone(taskId), seed);
      GrowsOn(db, closed, Store(closed, key, event), seed);
      GrowsOn(db, Store(closed, key, event), EndTask(db, taskId, ended, how, seed), seed);
    }
  }

  lemma SucceedGrows(db: Db, taskId: string, next: Task, how: Closing, id: string, run: Run, seed: nat)
    requires taskId in db.tasks && TaskGrows(db.tasks[taskId], next, seed) && how.state != Running
    requires id !in db.runs && run.state != Running
    ensures Grows(db, Succeed(db, taskId, next, how, id, run), seed)
  {
  }

  lemma MoveGrows(db: Db, id: string, run: Run, task: Task, seed: nat)
    requires id in db.runs && run.taskId in db.tasks
    requires RunGrows(db, id, db.runs[id], run) && TaskGrows(db.tasks[run.taskId], task, seed)
    ensures Grows(db, Move(db, id, run, task), seed)
  {
  }

  lemma ParkGrows(db: Db, id: string, run: Run, stamp: Stamp, seed: nat)
    requires id in db.runs && Owns(db, db.runs[id]) && RunGrows(db, id, db.runs[id], run) && stamp.By? && stamp.seed == seed
    ensures Grows(db, Park(db, id, run, stamp), seed)
  {
  }

  lemma StartGrows(db: Db, taskId: string, next: Task, id: string, run: Run, seed: nat)
    requires taskId in db.tasks ==> TaskGrows(db.tasks[taskId], next, seed)
    requires next.stamp.By? && next.stamp.seed == seed && id !in db.runs && run.state != Running
    ensures Grows(db, Start(db, taskId, next, id, run), seed)
  {
  }
}
