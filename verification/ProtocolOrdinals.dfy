/** The runs of a task, one after another: where a new one comes from, and what it inherits. */
module ProtocolOrdinals {
  import opened Options
  import opened Tables
  import opened Protocol
  import opened ProtocolInvariant
  import opened ProtocolHistory
  import opened ProtocolSafety
  import opened ProtocolRuns
  import opened ProtocolFollows
  import opened ProtocolOutcomes

  /** The id a batch mints for the run it may place. */
  function Mints(step: Step): Option<string> {
    match step
    case Spawns(sp) => Some(sp.runId)
    case Fails(f) => Some(f.nextId)
    case SweepsLaunch(_, _, _, passId) => Some(passId)
    case SweepsClaim(_, _, _, nextId) => Some(nextId)
    case Revives(_, _, _, runId) => Some(runId)
    case _ => None
  }

  /** The next attempt of this run, carrying what it carries. */
  predicate Succeeds(source: Run, run: Run) {
    run.taskId == source.taskId && run.attempt == source.attempt + 1 && run.eventPayload == source.eventPayload
  }

  /** A run that is new is the first of a new task, or comes after the top run of its task. */
  ghost predicate IsNext(db: Db, run: Run) {
    (run.taskId !in db.tasks && run.eventPayload.None?)
    || exists source :: source in db.runs && HighestOrdinal(db, source) && Succeeds(db.runs[source], run)
  }

  lemma SuccessorIsNext(db: Db, older: set<string>, id: string, run: Run)
    requires Inv(db, older) && id in db.runs && db.runs[id].state.Live() && Succeeds(db.runs[id], run)
    ensures IsNext(db, run)
  {
    assert HighestOrdinal(db, id);
  }

  lemma EndTaskPlacesNone(db: Db, taskId: string, ended: Task, how: Closing, seed: nat)
    ensures EndTask(db, taskId, ended, how, seed).runs.Keys == db.runs.Keys
  {
  }

  lemma FailPlacesNext(db: Db, f: Failure, seed: nat, id: string)
    requires id in Fail(db, f, seed).runs && id !in db.runs
    ensures id == f.nextId && f.runId in db.runs && db.runs[f.runId].state == Running
    ensures Succeeds(db.runs[f.runId], Fail(db, f, seed).runs[id])
  {
    hide EndTask, Current, AfterFailure;
    var run := db.runs[f.runId];
    var task := db.tasks[run.taskId];
    EndTaskPlacesNone(db, run.taskId,
                      task.(attempts := UserAttempts(run, task), state := Failed, reason := Some(f.reason),
                            stamp := By(seed, if f.retryMs.Some? && !f.rollback then "task-terminal" else "task")),
                      FailClosing(seed), seed);
  }

  lemma AtCapPlacesNext(db: Db, run: string, passId: string, reason: string, how: Closing, terminal: Stamp, seed: nat, id: string)
    requires run in db.runs && Owns(db, db.runs[run])
    requires id in AtCap(db, run, passId, reason, how, terminal, seed).runs && id !in db.runs
    ensures id == passId && Succeeds(db.runs[run], AtCap(db, run, passId, reason, how, terminal, seed).runs[id])
  {
    hide EndTask, EntersSaga;
    var task := db.tasks[db.runs[run].taskId];
    EndTaskPlacesNone(db, db.runs[run].taskId, task.(state := Failed, reason := Some(reason), stamp := terminal), how, seed);
  }

  lemma TimeoutPlacesNext(db: Db, queue: string, run: string, gen: nat, nextId: string, seed: nat, id: string)
    requires id in SweepClaimTimeout(db, queue, run, gen, nextId, seed).runs && id !in db.runs
    ensures id == nextId && run in db.runs && db.runs[run].state == Running
    ensures Succeeds(db.runs[run], SweepClaimTimeout(db, queue, run, gen, nextId, seed).runs[id])
  {
    hide AtCap, SoleLive, HighestOrdinal;
    if db.tasks[db.runs[run].taskId].infraRetries == INFRA_RETRY_CAP {
      AtCapPlacesNext(db, run, nextId, REASON_INFRA_CAP, Closing(Failed, false, false, By(seed, "fail")),
                      By(seed, "task-terminal"), seed, id);
    }
  }

  lemma LaunchPlacesNext(db: Db, queue: string, run: string, gen: nat, passId: string, seed: nat, id: string)
    requires id in SweepLostLaunch(db, queue, run, gen, passId, seed).runs && id !in db.runs
    ensures id == passId && run in db.runs && db.runs[run].state == Running
    ensures Succeeds(db.runs[run], SweepLostLaunch(db, queue, run, gen, passId, seed).runs[id])
  {
    hide AtCap, SoleLive, HighestOrdinal, RelaunchBackoffMs;
    AtCapPlacesNext(db, run, passId, REASON_RELAUNCH_CAP, Closing(Failed, false, true, By(seed, "cap")),
                    By(seed, "task-fail"), seed, id);
  }

  lemma RevivalPlacesNext(db: Db, queue: string, taskId: string, top: string, runId: string, seed: nat, id: string)
    requires id in RetryTask(db, queue, taskId, top, runId, seed).runs && id !in db.runs
    ensures id == runId && IsNext(db, RetryTask(db, queue, taskId, top, runId, seed).runs[id])
  {
    assert HighestOrdinal(db, top);
  }

  lemma OtherStepsPlaceNone(w: World, step: Step, id: string)
    requires !step.Fails? && !step.SweepsClaim? && !step.SweepsLaunch? && !step.Revives? && !step.Spawns?
    requires id in Apply(w, step).runs
    ensures id in w.db.runs
  {
    hide Current, CancelAdmits, ParkedOn;
  }

  lemma NewRunIsNext(w: World, step: Step, id: string)
    requires Inv(w.db, w.older) && id in Apply(w, step).runs && id !in w.db.runs
    ensures IsNext(w.db, Apply(w, step).runs[id])
  {
    hide Inv, IsNext, Succeeds, Fail, SweepClaimTimeout, SweepLostLaunch, RetryTask;
    match step
    case Fails(f) =>
      FailPlacesNext(w.db, f, w.seed, id);
      SuccessorIsNext(w.db, w.older, f.runId, Apply(w, step).runs[id]);
    case SweepsClaim(queue, run, gen, nextId) =>
      TimeoutPlacesNext(w.db, queue, run, gen, nextId, w.seed, id);
      SuccessorIsNext(w.db, w.older, run, Apply(w, step).runs[id]);
    case SweepsLaunch(queue, run, gen, passId) =>
      LaunchPlacesNext(w.db, queue, run, gen, passId, w.seed, id);
      SuccessorIsNext(w.db, w.older, run, Apply(w, step).runs[id]);
    case Revives(queue, taskId, top, runId) => RevivalPlacesNext(w.db, queue, taskId, top, runId, w.seed, id);
    case Spawns(sp) => SpawnPlacesNext(w.db, sp, w.seed, id);
    case _ => OtherStepsPlaceNone(w, step, id);
  }

  lemma SpawnPlacesNext(db: Db, sp: Spawning, seed: nat, id: string)
    requires id in Spawn(db, sp, seed).runs && id !in db.runs
    ensures id == sp.runId && IsNext(db, Spawn(db, sp, seed).runs[id])
  {
  }

  // ------------------------------------------------------------------------------------------
  // Ordinals.

  /** No two runs of a task have one ordinal. */
  ghost predicate OrdinalsDiffer(db: Db) {
    forall one, other :: one in db.runs && other in db.runs && one != other && db.runs[one].taskId == db.runs[other].taskId ==>
      db.runs[one].attempt != db.runs[other].attempt
  }

  lemma RunKeepsOrdinal(w: World, step: Step, id: string)
    requires Inv(w.db, w.older) && id in w.db.runs
    ensures id in Apply(w, step).runs && Apply(w, step).runs[id].taskId == w.db.runs[id].taskId
    ensures Apply(w, step).runs[id].attempt == w.db.runs[id].attempt
  {
    hide Inv, Apply;
    StepFollows(w, step, w.seed + 1);
    assert RunStays(w.db.runs[id], Apply(w, step).runs[id]);
  }

  /** A new run's ordinal is above every other's of its task. */
  lemma NewRunIsHighest(w: World, step: Step, id: string, other: string)
    requires Inv(w.db, w.older) && id in Apply(w, step).runs && id !in w.db.runs
    requires other in w.db.runs && w.db.runs[other].taskId == Apply(w, step).runs[id].taskId
    ensures w.db.runs[other].attempt < Apply(w, step).runs[id].attempt
  {
    hide Apply;
    NewRunIsNext(w, step, id);
    assert Owns(w.db, w.db.runs[other]);
  }

  /** A run that is new has the id its batch minted. */
  lemma NewRunIsMinted(w: World, step: Step, id: string)
    requires id in Apply(w, step).runs
    ensures id in w.db.runs || Mints(step) == Some(id)
  {
    hide IsNext, Succeeds, Fail, SweepClaimTimeout, SweepLostLaunch, RetryTask, Spawn;
    if id !in w.db.runs {
      match step
      case Fails(f) => FailPlacesNext(w.db, f, w.seed, id);
      case SweepsClaim(queue, run, gen, nextId) => TimeoutPlacesNext(w.db, queue, run, gen, nextId, w.seed, id);
      case SweepsLaunch(queue, run, gen, passId) => LaunchPlacesNext(w.db, queue, run, gen, passId, w.seed, id);
      case Revives(queue, taskId, top, runId) => RevivalPlacesNext(w.db, queue, taskId, top, runId, w.seed, id);
      case Spawns(sp) => SpawnPlacesNext(w.db, sp, w.seed, id);
      case _ => OtherStepsPlaceNone(w, step, id);
    }
  }

  lemma OneRunIsNew(w: World, step: Step, id: string, other: string)
    requires id in Apply(w, step).runs && id !in w.db.runs && other in Apply(w, step).runs && other !in w.db.runs
    ensures id == other
  {
    hide Apply;
    NewRunIsMinted(w, step, id);
    NewRunIsMinted(w, step, other);
  }

  lemma StepKeepsOrdinals(w: World, step: Step)
    requires Inv(w.db, w.older) && OrdinalsDiffer(w.db)
    ensures OrdinalsDiffer(Apply(w, step))
  {
    hide Inv, Apply;
    var after := Apply(w, step);
    forall one, other | one in after.runs && other in after.runs && one != other && after.runs[one].taskId == after.runs[other].taskId
      ensures after.runs[one].attempt != after.runs[other].attempt
    {
      if one in w.db.runs { RunKeepsOrdinal(w, step, one); }
      if other in w.db.runs { RunKeepsOrdinal(w, step, other); }
      if one !in w.db.runs && other !in w.db.runs {
        OneRunIsNew(w, step, one, other);
      } else if one !in w.db.runs {
        NewRunIsHighest(w, step, one, other);
      } else if other !in w.db.runs {
        NewRunIsHighest(w, step, other, one);
      }
    }
  }

  lemma {:induction false} HistoryKeepsOrdinals(w: World, steps: seq<Step>)
    requires WorldInv(w) && OrdinalsDiffer(w.db)
    ensures OrdinalsDiffer(After(w, steps).db)
    decreases |steps|
  {
    if steps != [] {
      StepKeepsOrdinals(w, steps[0]);
      StepKeeps(w, steps[0]);
      HistoryKeepsOrdinals(Next(w, steps[0]), steps[1..]);
    }
  }

  /** In every history each run of a task has an ordinal of its own, the next after the highest when it is placed. */
  lemma ReachableOrdinalsDiffer(now: int, steps: seq<Step>)
    ensures OrdinalsDiffer(After(Empty(now), steps).db)
  {
    EmptyIsSound(now);
    HistoryKeepsOrdinals(Empty(now), steps);
  }

  // ------------------------------------------------------------------------------------------
  // An await that timed out, and the runs that follow it.

  predicate IsLater(db: Db, id: string, later: string)
    requires id in db.runs
  {
    later in db.runs && db.runs[later].taskId == db.runs[id].taskId && db.runs[later].attempt > db.runs[id].attempt
  }

  /** The run, and every later run of its task, carries no payload and waits for nothing. */
  ghost predicate QuietFrom(db: Db, id: string) {
    && id in db.runs && Unanswered(db, id)
    && forall later :: IsLater(db, id, later) ==> Unanswered(db, later)
  }

  /** A run of the task awaits. */
  predicate TaskAwaits(step: Step, taskId: string) {
    step.Awaits? && step.a.taskId == taskId
  }

  lemma RunStaysUnanswered(w: World, step: Step, id: string)
    requires Unanswered(w.db, id) && !TaskAwaits(step, w.db.runs[id].taskId)
    ensures Unanswered(Apply(w, step), id)
  {
    hide Unanswered;
    UnansweredIsThere(w.db, id);
    if AwaitsAgain(step, id) {
      RefusedForAnother(w, step, id);
    } else {
      StaysUnanswered(w, step, id);
    }
  }

  lemma RefusedForAnother(w: World, step: Step, id: string)
    requires AwaitsAgain(step, id) && id in w.db.runs && step.a.taskId != w.db.runs[id].taskId
    ensures Apply(w, step) == w.db
  {
  }

  lemma UnansweredIsThere(db: Db, id: string)
    requires Unanswered(db, id)
    ensures id in db.runs
  {
  }

  /** A new run of a quiet task carries nothing, as the run it follows carries nothing. */
  lemma NewRunIsQuiet(w: World, step: Step, id: string, placed: string)
    requires Inv(w.db, w.older) && OrdinalsDiffer(w.db) && QuietFrom(w.db, id)
    requires placed in Apply(w, step).runs && placed !in w.db.runs && Apply(w, step).runs[placed].taskId == w.db.runs[id].taskId
    requires !TaskAwaits(step, w.db.runs[id].taskId)
    ensures Unanswered(Apply(w, step), placed)
  {
    hide Apply, Inv;
    var run := Apply(w, step).runs[placed];
    NewRunIsNext(w, step, placed);
    OwnerIsThere(w.db, w.older, id);
    var source :| source in w.db.runs && HighestOrdinal(w.db, source) && Succeeds(w.db.runs[source], run);
    NewRunHasNoWait(w, step, placed);
    assert w.db.runs[id].attempt <= w.db.runs[source].attempt;
    if source != id { assert IsLater(w.db, id, source); }
  }

  lemma OwnerIsThere(db: Db, older: set<string>, id: string)
    requires Inv(db, older) && id in db.runs
    ensures db.runs[id].taskId in db.tasks
  {
    assert Owns(db, db.runs[id]);
  }

  lemma NewRunHasNoWait(w: World, step: Step, id: string)
    requires Inv(w.db, w.older) && id in Apply(w, step).runs && id !in w.db.runs
    ensures !HasWait(Apply(w, step), id)
  {
    hide Apply, Inv;
    NoWaitBefore(w.db, w.older, id);
    if step.Awaits? {
      AwaitPlacesNone(w, step);
    } else if step.Claims? {
      ClaimGrows(w.db, step.queue, step.token, step.leaseMs, step.limit, step.picked, w.seed);
      ClaimPlacesNone(w, step);
    } else {
      StepGrows(w, step);
    }
  }

  lemma NoWaitBefore(db: Db, older: set<string>, id: string)
    requires Inv(db, older) && id !in db.runs
    ensures !HasWait(db, id)
  {
  }

  lemma AwaitPlacesNone(w: World, step: Step)
    requires step.Awaits?
    ensures Apply(w, step).runs.Keys == w.db.runs.Keys
  {
  }

  lemma ClaimPlacesNone(w: World, step: Step)
    requires step.Claims?
    ensures Apply(w, step).runs.Keys == w.db.runs.Keys
  {
  }

  lemma StaysQuiet(w: World, step: Step, id: string)
    requires Inv(w.db, w.older) && OrdinalsDiffer(w.db) && QuietFrom(w.db, id) && !TaskAwaits(step, w.db.runs[id].taskId)
    ensures QuietFrom(Apply(w, step), id)
  {
    hide Apply, Inv, OrdinalsDiffer, Unanswered;
    var after := Apply(w, step);
    UnansweredIsThere(w.db, id);
    RunKeepsOrdinal(w, step, id);
    RunStaysUnanswered(w, step, id);
    forall later | IsLater(after, id, later) ensures Unanswered(after, later) {
      if later in w.db.runs {
        RunKeepsOrdinal(w, step, later);
        assert IsLater(w.db, id, later);
        RunStaysUnanswered(w, step, later);
      } else {
        NewRunIsQuiet(w, step, id, later);
      }
    }
  }

  /**
   * An await that timed out is never answered: whatever ends or is emitted later, its run and the
   * runs of the task that follow it, after a retry, an infrastructure retry, a rollback pass or a
   * revival, carry no payload, until a run of the task awaits again.
   */
  lemma {:induction false} TimedOutStaysUnanswered(w: World, steps: seq<Step>, id: string)
    requires WorldInv(w) && OrdinalsDiffer(w.db) && QuietFrom(w.db, id)
    requires forall i :: 0 <= i < |steps| ==> !TaskAwaits(steps[i], w.db.runs[id].taskId)
    ensures QuietFrom(After(w, steps).db, id)
    decreases |steps|
  {
    if steps != [] {
      StaysQuiet(w, steps[0], id);
      StepKeeps(w, steps[0]);
      StepKeepsOrdinals(w, steps[0]);
      RunKeepsOrdinal(w, steps[0], id);
      TimedOutStaysUnanswered(Next(w, steps[0]), steps[1..], id);
    }
  }

  /** The claim that finds a registered wait due leaves its run the task's last, and quiet. */
  lemma TimeoutIsQuiet(now: int, steps: seq<Step>, queue: string, token: string, leaseMs: nat, limit: nat,
                       picked: set<string>, key: WaitKey)
    requires var w := After(Empty(now), steps);
      key in w.db.waits && key.0 in picked && ClaimAdmits(w.db, queue, token, leaseMs, limit, picked)
    ensures var after := After(Empty(now), steps + [Claims(queue, token, leaseMs, limit, picked)]);
      WorldInv(after) && OrdinalsDiffer(after.db) && QuietFrom(after.db, key.0)
  {
    hide WorldInv, OrdinalsDiffer, Unanswered, Claim;
    var w, step := After(Empty(now), steps), Claims(queue, token, leaseMs, limit, picked);
    ClaimTimesOut(now, steps, queue, token, leaseMs, limit, picked, key);
    AfterBoth(Empty(now), steps, [step]);
    assert [step][1..] == [];
    assert After(w, [step]) == Next(w, step);
    ReachableIsSound(now, steps + [step]);
    ReachableOrdinalsDiffer(now, steps + [step]);
    RunningIsHighest(Next(w, step), key.0);
  }

  lemma RunningIsHighest(w: World, id: string)
    requires WorldInv(w) && id in w.db.runs && w.db.runs[id].state == Running
    ensures HighestOrdinal(w.db, id)
  {
  }
}
