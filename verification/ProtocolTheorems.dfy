/** The protocol's promises, each for every history. */
module ProtocolTheorems {
  import opened Options
  import opened Tables
  import opened Protocol
  import opened ProtocolInvariant
  import opened ProtocolSteps
  import opened ProtocolHistory
  import opened ProtocolSafety
  import opened ProtocolRuns

  // ------------------------------------------------------------------------------------------
  // Accounting.

  /** A live task has one live run, whose ordinal is its counters' sum plus one. */
  lemma LiveTaskHasOneRun(now: int, steps: seq<Step>, taskId: string) returns (id: string)
    requires taskId in After(Empty(now), steps).db.tasks && After(Empty(now), steps).db.tasks[taskId].state.Live()
    ensures var db := After(Empty(now), steps).db;
      && LiveRunOf(db, id, taskId) && db.runs[id].state == db.tasks[taskId].state
      && (forall other :: LiveRunOf(db, other, taskId) ==> other == id)
      && TopRun(db, taskId, id)
      && db.runs[id].attempt == db.tasks[taskId].attempts + db.tasks[taskId].infraRetries + 1
  {
    ReachableIsSound(now, steps);
    id :| LiveRunOf(After(Empty(now), steps).db, id, taskId);
    LiveRunIsTop(After(Empty(now), steps).db, id);
  }

  /** The top ordinal of a task that ended is its counters' sum, or one more. */
  lemma EndedTaskIsCharged(now: int, steps: seq<Step>, taskId: string) returns (id: string)
    requires taskId in After(Empty(now), steps).db.tasks && !After(Empty(now), steps).db.tasks[taskId].state.Live()
    ensures var db := After(Empty(now), steps).db;
      && TopRun(db, taskId, id)
      && 0 <= db.runs[id].attempt - (db.tasks[taskId].attempts + db.tasks[taskId].infraRetries) <= 1
  {
    ReachableIsSound(now, steps);
    var db := After(Empty(now), steps).db;
    id :| TopRun(db, taskId, id) && Charged(db.runs[id], db.tasks[taskId]);
  }

  /** No ordinal passes its task's budget and the infrastructure cap together, and no cap is passed. */
  lemma OrdinalsAreBounded(now: int, steps: seq<Step>, id: string)
    requires id in After(Empty(now), steps).db.runs
    ensures var db := After(Empty(now), steps).db; var run := db.runs[id];
      && run.taskId in db.tasks
      && run.attempt <= db.tasks[run.taskId].maxAttempts + INFRA_RETRY_CAP
      && run.relaunches <= RELAUNCH_CAP && db.tasks[run.taskId].infraRetries <= INFRA_RETRY_CAP
  {
    ReachableIsSound(now, steps);
    var db := After(Empty(now), steps).db;
    var taskId := db.runs[id].taskId;
    assert Owns(db, db.runs[id]);
    if db.tasks[taskId].state.Live() {
      var live := LiveTaskHasOneRun(now, steps, taskId);
      assert Accounted(db.runs[live], db.tasks[taskId]);
    } else {
      var top :| TopRun(db, taskId, top) && Charged(db.runs[top], db.tasks[taskId]);
    }
  }

  /** What the batches ask of a run's ordinal and its siblings refuses nobody who holds a claim. */
  lemma ClaimedRunIsCurrent(now: int, steps: seq<Step>, queue: string, id: string, token: string)
    requires Claimed(After(Empty(now), steps).db, queue, id, token)
    ensures Current(After(Empty(now), steps).db, id)
  {
    ReachableIsSound(now, steps);
    var db := After(Empty(now), steps).db;
    LiveRunIsTop(db, id);
    forall other | other in db.runs && LiveRunOf(db, other, db.runs[id].taskId) ensures other == id {
      OnlyLiveRun(db, id, other);
    }
  }

  /** Every failed task no saga began for can be revived: the guard's arithmetic refuses none. */
  lemma FailedTaskCanBeRevived(now: int, steps: seq<Step>, taskId: string, newId: string) returns (top: string)
    requires var db := After(Empty(now), steps).db;
      taskId in db.tasks && db.tasks[taskId].state == Failed && db.tasks[taskId].saga.None? && newId !in db.runs
    ensures var db := After(Empty(now), steps).db; RetryAdmits(db, db.tasks[taskId].queue, taskId, top, newId)
  {
    ReachableIsSound(now, steps);
    var db := After(Empty(now), steps).db;
    top :| TopRun(db, taskId, top) && Charged(db.runs[top], db.tasks[taskId]);
    forall id | id in db.runs ensures !LiveRunOf(db, id, taskId) {
      assert Owns(db, db.runs[id]);
    }
  }

  // ------------------------------------------------------------------------------------------
  // Claims.

  /** No token holds more running runs of a queue than its last claim there asked for. */
  lemma ClaimBound(now: int, steps: seq<Step>, queue: string, token: string)
    ensures var w := After(Empty(now), steps);
      |Held(w.db, queue, token)| <= (if (queue, token) in w.asked then w.asked[(queue, token)] else 0)
  {
    ReachableIsSound(now, steps);
  }

  /** The claim under generation `gen` is over. */
  predicate ClaimOver(db: Db, id: string, gen: nat) {
    id in db.runs && (db.runs[id].claimGen > gen || (db.runs[id].claimGen == gen && db.runs[id].state != Running))
  }

  lemma ClaimStaysOver(w: World, step: Step, id: string, gen: nat)
    requires ClaimOver(w.db, id, gen)
    ensures ClaimOver(Apply(w, step), id, gen)
  {
    if step.Claims? {
      ClaimGrows(w.db, step.queue, step.token, step.leaseMs, step.limit, step.picked, w.seed);
    } else {
      if step.Awaits? {
        AwaitGrows(w.db, step.a, step.event, step.timeoutMs, w.seed);
      } else {
        StepGrows(w, step);
      }
      assert RunGrows(w.db, id, w.db.runs[id], Apply(w, step).runs[id]);
    }
  }

  /** A sweep armed with the generation of a claim that is over matches nothing, however late it comes. */
  lemma {:induction false} StaleSweepDoesNothing(w: World, steps: seq<Step>, queue: string, id: string, gen: nat,
                                                 nextId: string, seed: nat)
    requires ClaimOver(w.db, id, gen)
    ensures var db := After(w, steps).db;
      SweepLostLaunch(db, queue, id, gen, nextId, seed) == db && SweepClaimTimeout(db, queue, id, gen, nextId, seed) == db
    decreases |steps|
  {
    if steps != [] {
      ClaimStaysOver(w, steps[0], id, gen);
      StaleSweepDoesNothing(Next(w, steps[0]), steps[1..], queue, id, gen, nextId, seed);
    }
  }

  /** The claim under generation `gen` is over, or its launch was received. */
  predicate ReceiptOver(db: Db, id: string, gen: nat) {
    id in db.runs && (ClaimOver(db, id, gen) || db.runs[id].activatedGen >= gen)
  }

  lemma ReceiptStaysOver(w: World, step: Step, id: string, gen: nat)
    requires ReceiptOver(w.db, id, gen)
    ensures ReceiptOver(Apply(w, step), id, gen)
  {
    if ClaimOver(w.db, id, gen) {
      ClaimStaysOver(w, step, id, gen);
    } else if step.Claims? {
      ClaimGrows(w.db, step.queue, step.token, step.leaseMs, step.limit, step.picked, w.seed);
    } else {
      if step.Awaits? {
        AwaitGrows(w.db, step.a, step.event, step.timeoutMs, w.seed);
      } else {
        StepGrows(w, step);
      }
      assert RunGrows(w.db, id, w.db.runs[id], Apply(w, step).runs[id]);
    }
  }

  /** A launch received once is received no more, however late it comes, and neither is one of a claim that is over. */
  lemma {:induction false} LateLaunchIsRefused(w: World, steps: seq<Step>, queue: string, id: string, token: string, gen: nat)
    requires ReceiptOver(w.db, id, gen)
    ensures !Receipt(After(w, steps).db, queue, id, token, gen)
    decreases |steps|
  {
    if steps != [] {
      ReceiptStaysOver(w, steps[0], id, gen);
      LateLaunchIsRefused(Next(w, steps[0]), steps[1..], queue, id, token, gen);
    }
  }

  /** Nobody claims under the token. */
  predicate NoClaimBy(steps: seq<Step>, token: string) {
    forall i :: 0 <= i < |steps| ==> !(steps[i].Claims? && steps[i].token == token)
  }

  ghost predicate Lost(db: Db, id: string, token: string) {
    id in db.runs && !(db.runs[id].state == Running && db.runs[id].claimedBy == Some(token))
  }

  lemma LostStaysLost(w: World, step: Step, id: string, token: string)
    requires Lost(w.db, id, token) && !(step.Claims? && step.token == token)
    ensures Lost(Apply(w, step), id, token)
  {
    if step.Claims? {
      ClaimGrows(w.db, step.queue, step.token, step.leaseMs, step.limit, step.picked, w.seed);
    } else {
      if step.Awaits? {
        AwaitGrows(w.db, step.a, step.event, step.timeoutMs, w.seed);
      } else {
        StepGrows(w, step);
      }
      assert RunGrows(w.db, id, w.db.runs[id], Apply(w, step).runs[id]);
    }
  }

  lemma {:induction false} LostForGood(w: World, steps: seq<Step>, id: string, token: string)
    requires Lost(w.db, id, token) && NoClaimBy(steps, token)
    ensures Lost(After(w, steps).db, id, token)
    decreases |steps|
  {
    if steps != [] {
      LostStaysLost(w, steps[0], id, token);
      LostForGood(Next(w, steps[0]), steps[1..], id, token);
    }
  }

  predicate AwaitedUnder(a: Await, queue: string, id: string, token: string) {
    a.queue == queue && a.runId == id && a.token == token
  }

  /** A batch its worker sends under this claim: every batch that names a claim token, a child's spawn among them. */
  predicate SentUnder(step: Step, queue: string, id: string, token: string) {
    match step
    case Activates(q, run, t, _) => q == queue && run == id && t == token
    case Heartbeats(q, run, t, _) => q == queue && run == id && t == token
    case Expires(q, run, t) => q == queue && run == id && t == token
    case Checkpoints(q, run, t, _, _) => q == queue && run == id && t == token
    case Suspends(q, run, t, _, _) => q == queue && run == id && t == token
    case Defers(q, run, t, _, _) => q == queue && run == id && t == token
    case Completes(q, run, t, _) => q == queue && run == id && t == token
    case Fails(f) => f.queue == queue && f.runId == id && f.token == token
    case Awaits(a, _, _) => AwaitedUnder(a, queue, id, token)
    case Records(a, _) => AwaitedUnder(a, queue, id, token)
    case Spawns(sp) =>
      sp.parent.Some? && sp.parent.value.queue == queue && sp.parent.value.runId == id && sp.parent.value.token == token
    case _ => false
  }

  /** Without the claim each of them is refused. */
  lemma RefusedWithoutTheClaim(w: World, step: Step, queue: string, id: string, token: string)
    requires !Claimed(w.db, queue, id, token) && SentUnder(step, queue, id, token)
    ensures Apply(w, step) == w.db
  {
  }

  /**
   * A zombie writes nothing: once a run's claim is gone, then after any history in which nobody
   * claims under its token, no batch its worker sends under that claim changes a row, and no
   * await of it is answered.
   */
  lemma ZombieWritesNothing(w: World, steps: seq<Step>, queue: string, id: string, token: string, step: Step)
    requires Lost(w.db, id, token) && NoClaimBy(steps, token) && SentUnder(step, queue, id, token)
    ensures Apply(After(w, steps), step) == After(w, steps).db
    ensures forall a: Await, name: EventName :: AwaitedUnder(a, queue, id, token) ==> Hit(After(w, steps).db, a, name).None?
  {
    LostForGood(w, steps, id, token);
    RefusedWithoutTheClaim(After(w, steps), step, queue, id, token);
  }
}
