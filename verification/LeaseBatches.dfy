/** Spawning, activation, the checkpoint and the suspensions, statement by statement. */
module LeaseBatches {
  import opened Options
  import opened Tables
  import opened Protocol
  import opened ProtocolInvariant
  import opened ProtocolSteps
  import opened Statements
  import opened ProtocolFollows

  // ------------------------------------------------------------------------------------------
  // `spawn`.

  function TaskInserted(db: Db, sp: Spawning, seed: nat): map<string, Task> {
    if SpawnAdmits(db, sp) then Spawn(db, sp, seed).tasks else db.tasks
  }

  /** The first run, of a task under this batch's stamp that has none: ownership, which does not decay. */
  function FirstRunInserted(db: Db, sp: Spawning, seed: nat): map<string, Run> {
    if sp.taskId in db.tasks && db.tasks[sp.taskId].stamp == By(seed, "task")
       && forall id :: id in db.runs ==> db.runs[id].taskId != sp.taskId
    then db.runs[sp.runId := Run(sp.taskId, sp.queue, 1, Pending, Some(db.now + sp.delayMs), None, None, None,
                                 None, 0, 0, 0, 0, None, By(seed, "run"))]
    else db.runs
  }

  function SpawnStatements(db: Db, sp: Spawning, seed: nat): Db {
    var inserted := db.(tasks := TaskInserted(db, sp, seed));
    inserted.(runs := FirstRunInserted(inserted, sp, seed))
  }

  lemma EveryTaskHasARun(db: Db, older: set<string>, taskId: string)
    requires Inv(db, older) && taskId in db.tasks
    ensures exists id :: id in db.runs && db.runs[id].taskId == taskId
  {
    if db.tasks[taskId].state.Live() {
      var id :| LiveRunOf(db, id, taskId);
    } else {
      var id :| TopRun(db, taskId, id);
    }
  }

  /** Whenever they arrive, the statements of a spawn are its one atomic step taken then. */
  lemma SpawnDelivers(db: Db, older: set<string>, sp: Spawning, seed: nat)
    requires Inv(db, older)
    ensures SpawnStatements(db, sp, seed) == Spawn(db, sp, seed)
  {
    if SpawnAdmits(db, sp) {
      forall id | id in db.runs ensures db.runs[id].taskId != sp.taskId {
        assert Owns(db, db.runs[id]);
      }
    } else if sp.taskId in db.tasks {
      EveryTaskHasARun(db, older, sp.taskId);
    }
  }

  lemma SpawnAgain(first: Db, older: set<string>, sp: Spawning, seed: nat)
    requires Inv(first, older)
    ensures SpawnStatements(Spawn(first, sp, seed), sp, seed) == Spawn(first, sp, seed)
  {
    SpawnStepKeeps(first, older, sp, seed);
    SpawnDelivers(Spawn(first, sp, seed), older, sp, seed);
  }

  // ------------------------------------------------------------------------------------------
  // `activate`.

  datatype Activating = Activating(queue: string, id: string, token: string, gen: nat)

  function RunActivated(db: Db, a: Activating, seed: nat): map<string, Run> {
    if Receipt(db, a.queue, a.id, a.token, a.gen)
    then db.runs[a.id := db.runs[a.id].(activatedGen := a.gen, expiresAt := Some(db.now + db.runs[a.id].leaseMs),
                                        stamp := By(seed, "activate"))]
    else db.runs
  }

  function Deadline(task: Task, started: int): Option<int> {
    if task.maxDurationMs.Some? then Some(started + task.maxDurationMs.value) else None
  }

  /** `task-start`: only this batch's own latch starts the clock, or rearms the deadline. */
  function TaskStarted(db: Db, a: Activating, seed: nat): map<string, Task> {
    if Stamped(db, a.id, By(seed, "activate")) && Owns(db, db.runs[a.id]) && db.tasks[db.runs[a.id].taskId].state.Live()
    then
      var task := db.tasks[db.runs[a.id].taskId];
      var started := if task.firstStartedAt.Some? then task.firstStartedAt.value else db.now;
      db.tasks[db.runs[a.id].taskId := task.(firstStartedAt := Some(started), cancelAt := Deadline(task, started),
                                             stamp := By(seed, "task-start"))]
    else db.tasks
  }

  function ActivateStatements(db: Db, a: Activating, seed: nat): Db {
    var activated := db.(runs := RunActivated(db, a, seed));
    activated.(tasks := TaskStarted(activated, a, seed))
  }

  function ActivateOf(db: Db, a: Activating, seed: nat): Db {
    Activate(db, a.queue, a.id, a.token, a.gen, seed)
  }

  /** While the run bears this batch's stamp, its task is as this batch left it. */
  ghost predicate ActivationStands(db: Db, a: Activating, seed: nat) {
    Stamped(db, a.id, By(seed, "activate")) ==>
      && db.runs[a.id].state == Running && db.runs[a.id].taskId in db.tasks
      && var task := db.tasks[db.runs[a.id].taskId];
      && task.stamp == By(seed, "task-start") && task.firstStartedAt.Some?
      && task.cancelAt == Deadline(task, task.firstStartedAt.value)
  }

  /** Whenever they arrive, the statements of an activation are its one atomic step taken then. */
  lemma ActivateDelivers(db: Db, a: Activating, seed: nat)
    requires ActivationStands(db, a, seed)
    ensures ActivateStatements(db, a, seed) == ActivateOf(db, a, seed)
  {
  }

  lemma ActivateLeaves(db: Db, a: Activating, seed: nat)
    requires ActivationStands(db, a, seed)
    ensures ActivationStands(ActivateOf(db, a, seed), a, seed)
  {
  }

  lemma ActivationStandsOn(db: Db, after: Db, a: Activating, seed: nat)
    requires ActivationStands(db, a, seed) && Follows(db, after, seed)
    ensures ActivationStands(after, a, seed)
  {
  }

  /** A duplicate delivery that lost rearms no deadline. */
  lemma ActivateAgain(first: Db, a: Activating, seed: nat)
    requires Unspent(first, seed)
    ensures ActivateStatements(ActivateOf(first, a, seed), a, seed) == ActivateOf(first, a, seed)
  {
    ActivateLeaves(first, a, seed);
    ActivateDelivers(ActivateOf(first, a, seed), a, seed);
    assert !Receipt(ActivateOf(first, a, seed), a.queue, a.id, a.token, a.gen) || ActivateOf(first, a, seed) == first;
  }

  // ------------------------------------------------------------------------------------------
  // `set-checkpoint`.

  datatype Saving = Saving(queue: string, id: string, token: string, extendMs: nat, owed: bool)

  function RunLeased(db: Db, c: Saving, seed: nat): map<string, Run> {
    if LiveClaim(db, c.queue, c.id, c.token)
    then db.runs[c.id := db.runs[c.id].(expiresAt := Some(db.now + c.extendMs), stamp := By(seed, "lease"))] else db.runs
  }

  /** `checkpoint`, as far as it decides whether a rollback is owed. */
  function CheckpointWritten(db: Db, c: Saving, seed: nat): map<string, Task> {
    if Stamped(db, c.id, By(seed, "lease")) && db.runs[c.id].taskId in db.tasks
    then db.tasks[db.runs[c.id].taskId := db.tasks[db.runs[c.id].taskId].(rollbackOwed := c.owed)] else db.tasks
  }

  function SaveStatements(db: Db, c: Saving, seed: nat): Db {
    var leased := db.(runs := RunLeased(db, c, seed));
    leased.(tasks := CheckpointWritten(leased, c, seed))
  }

  function SaveOf(db: Db, c: Saving, seed: nat): Db {
    SetCheckpoint(db, c.queue, c.id, c.token, c.extendMs, c.owed, seed)
  }

  /** A run under this batch's stamp is still held under its claim. */
  predicate SavingStands(db: Db, c: Saving, seed: nat) {
    Stamped(db, c.id, By(seed, "lease")) ==> LiveClaim(db, c.queue, c.id, c.token)
  }

  lemma SaveDelivers(db: Db, c: Saving, seed: nat)
    requires SavingStands(db, c, seed)
    ensures SaveStatements(db, c, seed) == SaveOf(db, c, seed)
  {
  }

  lemma SaveLeaves(db: Db, c: Saving, seed: nat)
    requires SavingStands(db, c, seed)
    ensures SavingStands(SaveOf(db, c, seed), c, seed)
  {
  }

  lemma SavingStandsOn(db: Db, after: Db, c: Saving, seed: nat)
    requires SavingStands(db, c, seed) && Follows(db, after, seed)
    ensures SavingStands(after, c, seed)
  {
  }

  lemma SaveAgain(first: Db, c: Saving, seed: nat)
    requires Unspent(first, seed)
    ensures SaveStatements(SaveOf(first, c, seed), c, seed) == SaveOf(first, c, seed)
  {
    SaveLeaves(first, c, seed);
    SaveDelivers(SaveOf(first, c, seed), c, seed);
  }

  // ------------------------------------------------------------------------------------------
  // `suspend`, `reschedule` and `defer-launch`.

  /** A suspension keeps no wake, a deferral keeps the one the run carries. */
  datatype Parking =
    | Suspension(queue: string, id: string, token: string, wakeAt: int, marker: bool)
    | Deferral(queue: string, id: string, token: string, wakeAt: int, gen: nat)

  predicate ParkAdmits(db: Db, p: Parking) {
    match p
    case Suspension(queue, id, token, _, marker) =>
      MayPark(db, queue, id, token) && !(marker && db.tasks[db.runs[id].taskId].saga.Some?)
    case Deferral(queue, id, token, _, gen) => Receipt(db, queue, id, token, gen)
  }

  function ParkOf(db: Db, p: Parking, seed: nat): Db {
    match p
    case Suspension(queue, id, token, wakeAt, marker) => Suspend(db, queue, id, token, wakeAt, marker, seed)
    case Deferral(queue, id, token, wakeAt, gen) => DeferLaunch(db, queue, id, token, gen, wakeAt, seed)
  }

  /** `suspend`, the compare-and-set of all three. */
  function RunSuspended(db: Db, p: Parking, seed: nat): map<string, Run> {
    if ParkAdmits(db, p)
    then
      var parked := Unclaimed(db.runs[p.id]).(state := Due(p.wakeAt, db.now), availableAt := Some(p.wakeAt),
                                              stamp := By(seed, "suspend"));
      db.runs[p.id := if p.Suspension? then NoWake(parked) else parked]
    else db.runs
  }

  /** `task-mirror`. */
  function TaskMirrors(db: Db, p: Parking, seed: nat): map<string, Task> {
    if Stamped(db, p.id, By(seed, "suspend")) && Owns(db, db.runs[p.id]) && db.tasks[db.runs[p.id].taskId].state.Live()
    then db.tasks[db.runs[p.id].taskId := db.tasks[db.runs[p.id].taskId].(state := db.runs[p.id].state,
                                                                         stamp := By(seed, "task-mirror"))]
    else db.tasks
  }

  function ParkStatements(db: Db, p: Parking, seed: nat): Db {
    var suspended := db.(runs := RunSuspended(db, p, seed));
    var mirrored := suspended.(tasks := TaskMirrors(suspended, p, seed));
    mirrored.(waits := WaitsGone(mirrored, p.id, By(seed, "suspend")))
  }

  /** While the run bears this batch's stamp, its task mirrors it and it has no wait. */
  ghost predicate ParkingStands(db: Db, p: Parking, seed: nat) {
    Stamped(db, p.id, By(seed, "suspend")) ==>
      && db.runs[p.id].state.Live() && db.runs[p.id].taskId in db.tasks
      && (forall key :: key in db.waits ==> key.0 != p.id)
      && var task := db.tasks[db.runs[p.id].taskId];
      && task.state == db.runs[p.id].state && task.stamp == By(seed, "task-mirror")
  }

  /** Whenever they arrive, the statements of a suspension are its one atomic step taken then. */
  lemma ParkDelivers(db: Db, p: Parking, seed: nat)
    requires ParkingStands(db, p, seed)
    ensures ParkStatements(db, p, seed) == ParkOf(db, p, seed)
  {
    if !ParkAdmits(db, p) {
      assert WaitsGone(db, p.id, By(seed, "suspend")) == db.waits;
      assert TaskMirrors(db, p, seed) == db.tasks;
    }
  }

  lemma ParkLeaves(db: Db, p: Parking, seed: nat)
    requires ParkingStands(db, p, seed)
    ensures ParkingStands(ParkOf(db, p, seed), p, seed)
  {
  }

  lemma ParkingStandsOn(db: Db, after: Db, p: Parking, seed: nat)
    requires ParkingStands(db, p, seed) && Follows(db, after, seed)
    ensures ParkingStands(after, p, seed)
  {
    if Stamped(after, p.id, By(seed, "suspend")) {
      forall key: WaitKey | key.0 == p.id ensures key !in after.waits {
        assert Kept(db, after, p.id);
      }
    }
  }

  lemma ParkAgain(first: Db, p: Parking, seed: nat)
    requires Unspent(first, seed)
    ensures ParkStatements(ParkOf(first, p, seed), p, seed) == ParkOf(first, p, seed)
  {
    ParkLeaves(first, p, seed);
    ParkDelivers(ParkOf(first, p, seed), p, seed);
    ParksOnce(first, p, seed);
  }

  lemma ParksOnce(first: Db, p: Parking, seed: nat)
    ensures ParkOf(ParkOf(first, p, seed), p, seed) == ParkOf(first, p, seed)
  {
  }
}
