/**
 * The one input a late delivery fails on is real: a batch ends its task, a revival brings the
 * task back, and the batch arrives again.
 */
module LateFailures {
  import opened Options
  import opened Tables
  import opened Protocol
  import opened ProtocolInvariant
  import opened ProtocolHistory
  import opened ProtocolRuns
  import opened ProtocolFollows
  import opened FailBatch
  import opened Sweeps
  import opened Batches
  import opened ProtocolOrdinals
  import opened Deliveries

  /** A failure, or a sweep, that ends the task of its run. */
  ghost predicate EndsItsTask(w: World, step: Step) {
    && (step.Fails? || step.SweepsLaunch? || step.SweepsClaim?) && NamesARun(w.db, step) && Apply(w, step) != w.db
    && var taskId := TaskOf(w.db, if step.Fails? then step.f.runId else step.id);
    && taskId in Apply(w, step).tasks && !Apply(w, step).tasks[taskId].state.Live()
  }

  lemma FailureEndsAlone(db: Db, f: Failure, seed: nat)
    requires FailAdmits(db, f) && !Fail(db, f, seed).tasks[db.runs[f.runId].taskId].state.Live()
    ensures AfterFailure(db.tasks[db.runs[f.runId].taskId], db.runs[f.runId], f).EndsTask?
  {
  }

  lemma EndTaskMints(db: Db, taskId: string, ended: Task, how: Closing, seed: nat)
    ensures EndTask(db, taskId, ended, how, seed).runs.Keys == db.runs.Keys
    ensures (ended.queue, TaskDone(taskId)) in EndTask(db, taskId, ended, how, seed).events
  {
  }

  lemma FailureLeavesEnded(w: World, step: Step)
    requires Inv(w.db, w.older) && step.Fails? && EndsItsTask(w, step)
    ensures EndedByThis(Apply(w, step), step.f, TaskOf(w.db, step.f.runId), w.seed)
  {
    hide Inv, Current, EndTask;
    var db, f, seed := w.db, step.f, w.seed;
    FailureEndsAlone(db, f, seed);
    FailAdmitsOwner(db, f);
    var run := db.runs[f.runId];
    var ended := db.tasks[run.taskId].(attempts := UserAttempts(run, db.tasks[run.taskId]), state := Failed,
                                       reason := Some(f.reason), stamp := TerminalStamp(f, seed));
    EndTaskMints(db, run.taskId, ended, FailClosing(seed), seed);
    EndTaskCloses(db, run.taskId, ended, FailClosing(seed), seed, f.runId);
  }

  lemma CapEndsAlone(db: Db, id: string, passId: string, reason: string, how: Closing, terminal: Stamp, seed: nat)
    requires id in db.runs && Owns(db, db.runs[id]) && db.runs[id].state.Live() && passId !in db.runs && !how.state.Live()
    requires var after := AtCap(db, id, passId, reason, how, terminal, seed);
      db.runs[id].taskId in after.tasks && !after.tasks[db.runs[id].taskId].state.Live()
    ensures var after := AtCap(db, id, passId, reason, how, terminal, seed);
      && passId !in after.runs && id in after.runs && after.runs[id] == Close(db.runs[id], how)
      && (db.tasks[db.runs[id].taskId].queue, TaskDone(db.runs[id].taskId)) in after.events
  {
    hide EndTask;
    var taskId := db.runs[id].taskId;
    var ended := db.tasks[taskId].(state := Failed, reason := Some(reason), stamp := terminal);
    EndTaskMints(db, taskId, ended, how, seed);
    EndTaskCloses(db, taskId, ended, how, seed, id);
  }

  lemma TimeoutLeavesEnded(w: World, step: Step)
    requires Inv(w.db, w.older) && step.SweepsClaim? && EndsItsTask(w, step)
    ensures CappedByThis(Apply(w, step), SweepOf(step), TaskOf(w.db, step.id), By(w.seed, "fail"))
  {
    hide Inv, Current, AtCap;
    SweptIsOwned(w.db, step.queue, step.id, step.gen);
    CapEndsAlone(w.db, step.id, step.nextId, REASON_INFRA_CAP, Closing(Failed, false, false, By(w.seed, "fail")),
                 By(w.seed, "task-terminal"), w.seed);
  }

  lemma LaunchLeavesEnded(w: World, step: Step)
    requires Inv(w.db, w.older) && step.SweepsLaunch? && EndsItsTask(w, step)
    ensures CappedByThis(Apply(w, step), SweepOf(step), TaskOf(w.db, step.id), By(w.seed, "cap"))
  {
    hide Inv, Current, AtCap;
    SweptIsOwned(w.db, step.queue, step.id, step.gen);
    CapEndsAlone(w.db, step.id, step.passId, REASON_RELAUNCH_CAP, Closing(Failed, false, true, By(w.seed, "cap")),
                 By(w.seed, "task-fail"), w.seed);
  }

  /** The revival of the ended task leaves the batch's rows as they are, and the task live. */
  lemma RevivalUndoes(w: World, step: Step, revival: Step)
    requires WorldInv(w) && EndsItsTask(w, step)
    requires revival.Revives? && Apply(Next(w, step), revival) != Apply(w, step) && Mints(revival) != Mints(step)
    requires revival.taskId == TaskOf(w.db, if step.Fails? then step.f.runId else step.id)
    ensures Undone(After(w, [step, revival]).db, step, w.seed)
  {
    hide WorldInv, Inv, EndsItsTask, Apply, After, RetryTask;
    AfterTwo(w, [step, revival]);
    EndedIsMarked(w, step);
    RevivalKeepsRuns(Next(w, step), revival);
  }

  /** The rows by which a later delivery finds what this one ended. */
  lemma EndedIsMarked(w: World, step: Step)
    requires WorldInv(w) && EndsItsTask(w, step)
    ensures var taskId := TaskOf(w.db, if step.Fails? then step.f.runId else step.id);
      && (step.Fails? ==> EndedByThis(Apply(w, step), step.f, taskId, w.seed))
      && (step.SweepsClaim? ==> CappedByThis(Apply(w, step), SweepOf(step), taskId, By(w.seed, "fail")))
      && (step.SweepsLaunch? ==> CappedByThis(Apply(w, step), SweepOf(step), taskId, By(w.seed, "cap")))
      && (step.Fails? || step.SweepsClaim? || step.SweepsLaunch?)
    ensures TaskOf(Apply(w, step), if step.Fails? then step.f.runId else step.id)
         == TaskOf(w.db, if step.Fails? then step.f.runId else step.id)
  {
    StepFollows(w, step, w.seed + 1);
    if step.Fails? {
      FailureLeavesEnded(w, step);
      NamedRunStays(w.db, Apply(w, step), step.f.runId, w.seed + 1);
    } else {
      if step.SweepsClaim? { TimeoutLeavesEnded(w, step); } else { LaunchLeavesEnded(w, step); }
      NamedRunStays(w.db, Apply(w, step), step.id, w.seed + 1);
    }
  }

  lemma RevivalKeepsRuns(w: World, revival: Step)
    requires revival.Revives? && Apply(w, revival) != w.db
    ensures var after := Apply(w, revival);
      && (forall id :: id in w.db.runs ==> id in after.runs && after.runs[id] == w.db.runs[id])
      && (forall id :: id in after.runs ==> id in w.db.runs || Mints(revival) == Some(id))
      && after.events == w.db.events && revival.taskId in after.tasks && after.tasks[revival.taskId].state == Pending
      && (forall id :: id in w.db.tasks ==> id in after.tasks)
  {
  }

  // ------------------------------------------------------------------------------------------
  // A history that reaches it.

  const FAILURE := Failure("queue", "first", "worker", "{}", None, "second", false)

  /** One task of one attempt is spawned and claimed. */
  function SpawnAndClaim(): seq<Step> {
    [Spawns(Spawning("queue", "task", "first", None, 1, 0, None, None, None)), Claims("queue", "worker", 1_000, 1, {"first"})]
  }

  function TaskIn(state: State, stamp: Stamp): Task {
    Task("queue", None, state, 0, 1, 0, None, None, None, None, None, false, None, stamp)
  }

  function Spawned(): Db {
    Db(0, map["task" := TaskIn(Pending, By(0, "task"))],
       map["first" := Run("task", "queue", 1, Pending, Some(0), None, None, None, None, 0, 0, 0, 0, None, By(0, "run"))],
       map[], map[])
  }

  function ClaimedRows(): Db {
    Db(0, map["task" := TaskIn(Running, By(1, "task-book"))],
       map["first" := Run("task", "queue", 1, Running, Some(0), None, None, None, Some("worker"), 1, 0, 0, 1_000, Some(1_000),
                          By(1, "claim"))],
       map[], map[])
  }

  function FailedRows(): Db {
    Db(0, map["task" := TaskIn(Failed, By(2, "task")).(attempts := 1, reason := Some("{}"))],
       map["first" := Run("task", "queue", 1, Failed, Some(0), None, None, None, None, 1, 0, 0, 1_000, None, By(2, "fail"))],
       map[], map[("queue", TaskDone("task")) := Event(Encoded(Outcome(Failed, None, Some("{}"))), 0, By(2, "task-done"))])
  }

  lemma ItIsSpawned()
    ensures Apply(Empty(0), SpawnAndClaim()[0]) == Spawned()
  {
  }

  lemma ItIsClaimed()
    ensures Claim(Spawned(), "queue", "worker", 1_000, 1, {"first"}, 1) == ClaimedRows()
  {
    var db := Spawned();
    assert Held(db, "queue", "worker") == {};
    assert Claimable(db, "queue", "first");
    var after := Claim(db, "queue", "worker", 1_000, 1, {"first"}, 1);
    assert after.runs == ClaimedRows().runs;
    assert after.tasks == ClaimedRows().tasks;
    assert after.waits == map[];
  }

  lemma ItFails()
    ensures Fail(ClaimedRows(), FAILURE, 2) == FailedRows()
  {
    var db := ClaimedRows();
    assert FailAdmits(db, FAILURE);
    assert AfterFailure(db.tasks["task"], db.runs["first"], FAILURE) == EndsTask;
    var ended := TaskIn(Failed, By(2, "task")).(attempts := 1, reason := Some("{}"));
    var closed := CloseRuns(db, "task", FailClosing(2));
    assert closed.runs == FailedRows().runs && closed.waits == map[];
    var stored := closed.(tasks := closed.tasks["task" := ended], events := FailedRows().events);
    NobodyIsWoken(stored, "queue", TaskDone("task"), 2);
  }

  lemma NobodyIsWoken(db: Db, queue: string, name: EventName, seed: nat)
    requires (queue, name) in db.events && db.waits == map[]
    ensures Wake(db, queue, name, seed) == db
  {
    WakingNobody(db, queue, name, seed);
  }

  lemma ItIsRevived()
    ensures RetryAdmits(FailedRows(), "queue", "task", "first", "third")
  {
  }

  lemma TheHistory() returns (w: World)
    ensures w == After(Empty(0), SpawnAndClaim()) && w.db == ClaimedRows() && w.seed == 2
  {
    hide Claim, Spawn;
    var steps := SpawnAndClaim();
    ItIsSpawned();
    ItIsClaimed();
    w := Next(Next(Empty(0), steps[0]), steps[1]);
    AfterTwo(Empty(0), steps);
  }

  lemma AfterTwo(w: World, steps: seq<Step>)
    requires |steps| == 2
    ensures After(w, steps) == Next(Next(w, steps[0]), steps[1])
  {
    assert steps[1..][1..] == [];
    assert After(Next(w, steps[0]), steps[1..]) == Next(Next(w, steps[0]), steps[1]);
  }

  /** What the duplicate needs of the history: the failure ended the task, and the revival is admitted. */
  lemma TheFailureEnds(w: World)
    requires w.db == ClaimedRows() && w.seed == 2
    ensures EndsItsTask(w, Fails(FAILURE)) && MintsNew(w.db, Fails(FAILURE)) && NamesARun(w.db, Fails(FAILURE))
    ensures TaskOf(w.db, FAILURE.runId) == "task"
    ensures var next := Next(w, Fails(FAILURE)); var revival := Revives("queue", "task", "first", "third");
      Apply(next, revival) != next.db && "task" in Apply(next, revival).tasks && Apply(next, revival).tasks["task"].state.Live()
  {
    hide Fail, RetryAdmits, RetryTask;
    ItFails();
    ItIsRevived();
    RevivedDiffers(Next(w, Fails(FAILURE)));
  }

  lemma OneBetween(step: Step)
    requires Mints(step) != Some("second")
    ensures MintsApart(Fails(FAILURE), [step]) && Mints(step) != Mints(Fails(FAILURE))
  {
  }

  /** The failure ends the task, a revival brings it back, and the failure's duplicate changes it again. */
  lemma ADuplicateChangesTheRevived()
    ensures var revived := After(Empty(0), SpawnAndClaim() + [Fails(FAILURE), Revives("queue", "task", "first", "third")]);
      && "task" in revived.db.tasks && revived.db.tasks["task"].state.Live()
      && Delivered(revived.(seed := 2), Fails(FAILURE)) != revived.db
  {
    hide WorldInv, AllUnspent, Apply, Undone, Delivered, EndsItsTask, MintsNew, NamesARun, After, Redelivery, SpawnAndClaim,
         MintsApart, Resends;
    var fails, revival := Fails(FAILURE), Revives("queue", "task", "first", "third");
    var w := TheHistory();
    ReachableIsSound(0, SpawnAndClaim());
    ReachableIsUnspent(0, SpawnAndClaim());
    TheFailureEnds(w);
    OneBetween(revival);
    RevivalUndoes(w, fails, revival);
    AfterTwo(w, [fails, revival]);
    AfterBoth(Empty(0), SpawnAndClaim(), [fails, revival]);
    ItComesAgain(w, fails, revival);
  }

  lemma ItComesAgain(w: World, fails: Step, revival: Step)
    requires WorldInv(w) && AllUnspent(w) && MintsNew(w.db, fails) && NamesARun(w.db, fails) && MintsApart(fails, [revival])
    requires EndsItsTask(w, fails) && Undone(After(w, [fails, revival]).db, fails, w.seed)
    ensures Delivered(After(w, [fails, revival]).(seed := w.seed), fails) != After(w, [fails, revival]).db
  {
    hide WorldInv, AllUnspent, Apply, Undone, Delivered, MintsNew, NamesARun, MintsApart;
    assert [fails, revival][1..] == [revival];
    LateDuplicate(w, fails, [revival], fails);
  }

  lemma RevivedDiffers(w: World)
    requires w.db == FailedRows() && RetryAdmits(w.db, "queue", "task", "first", "third")
    ensures var after := Apply(w, Revives("queue", "task", "first", "third"));
      after != w.db && "task" in after.tasks && after.tasks["task"].state.Live()
  {
  }
}
