/** The invariant of whole histories, and that every reachable world has it. */
module ProtocolRuns {
  import opened Tables
  import opened Protocol
  import opened ProtocolInvariant
  import opened ProtocolStarts
  import opened ProtocolSteps
  import opened ProtocolHistory
  import opened ProtocolSafety

  /** A task's stamp is of a batch already sent, and a read still says how the row it saw had ended. */
  ghost predicate StampsAreSpent(w: World) {
    && (forall taskId :: taskId in w.db.tasks ==> StampedBefore(w.db.tasks[taskId].stamp, w.seed))
    && (forall read :: read in w.seen ==>
          StampedBefore(read.stamp, w.seed) && ReadRight(w.db, read.child, read.stamp, read.outcome)
          && read.child in w.db.tasks)
  }

  /** No token holds more running runs of a queue than its last claim there asked for. */
  ghost predicate ClaimsBounded(w: World) {
    forall queue, token ::
      |Held(w.db, queue, token)| <= (if (queue, token) in w.asked then w.asked[(queue, token)] else 0)
  }

  ghost predicate WorldInv(w: World) {
    Inv(w.db, w.older) && StampsAreSpent(w) && ClaimsBounded(w)
  }

  // ------------------------------------------------------------------------------------------
  // The rows.

  lemma WorkerEndingKeeps(w: World, step: Step)
    requires Inv(w.db, w.older) && (step.Completes? || step.Fails?)
    ensures Inv(Apply(w, step), w.older)
  {
    match step
    case Completes(queue, id, token, result) => CompleteKeeps(w.db, w.older, queue, id, token, result, w.seed);
    case Fails(f) => FailKeeps(w.db, w.older, f, w.seed);
  }

  lemma CancellationKeeps(w: World, step: Step)
    requires Inv(w.db, w.older) && step.Cancels?
    ensures Inv(Apply(w, step), w.older)
  {
    match step
    case Cancels(queue, taskId, deadlineOnly, unlessSaga) => 
      CancelKeeps(w.db, w.older, queue, taskId, deadlineOnly, unlessSaga, w.seed);
  }

  lemma SweepKeeps(w: World, step: Step)
    requires Inv(w.db, w.older) && (step.SweepsLaunch? || step.SweepsClaim?)
    ensures Inv(Apply(w, step), w.older)
  {
    match step
    case SweepsLaunch(queue, id, gen, passId) => LostLaunchKeeps(w.db, w.older, queue, id, gen, passId, w.seed);
    case SweepsClaim(queue, id, gen, nextId) => ClaimTimeoutKeeps(w.db, w.older, queue, id, gen, nextId, w.seed);
  }

  lemma LaunchKeeps(w: World, step: Step)
    requires Inv(w.db, w.older) && (step.Activates? || step.Heartbeats?)
    ensures Inv(Apply(w, step), w.older)
  {
    match step
    case Activates(queue, id, token, gen) => ActivateKeeps(w.db, w.older, queue, id, token, gen, w.seed);
    case Heartbeats(queue, id, token, extendMs) => HeartbeatKeeps(w.db, w.older, queue, id, token, extendMs, w.seed);
  }

  lemma LeaseKeeps(w: World, step: Step)
    requires Inv(w.db, w.older) && (step.Expires? || step.Checkpoints?)
    ensures Inv(Apply(w, step), w.older)
  {
    match step
    case Expires(queue, id, token) => ExpireKeeps(w.db, w.older, queue, id, token);
    case Checkpoints(queue, id, token, extendMs, owed) => 
      CheckpointKeeps(w.db, w.older, queue, id, token, extendMs, owed, w.seed);
  }

  lemma SuspensionKeeps(w: World, step: Step)
    requires Inv(w.db, w.older) && (step.Suspends? || step.Defers?)
    ensures Inv(Apply(w, step), w.older)
  {
    match step
    case Suspends(queue, id, token, wakeAt, marker) => 
      SuspendKeeps(w.db, w.older, queue, id, token, wakeAt, marker, w.seed);
    case Defers(queue, id, token, gen, wakeAt) => DeferKeeps(w.db, w.older, queue, id, token, gen, wakeAt, w.seed);
  }

  lemma TickKeeps(db: Db, older: set<string>, ms: nat)
    requires Inv(db, older)
    ensures Inv(Later(db, ms), older)
  {
    assert Reshaped(db, Later(db, ms));
    ReshapeKeeps(db, Later(db, ms));
  }

  lemma ClockKeeps(w: World, step: Step)
    requires Inv(w.db, w.older) && (step.Tick? || step.Reads?)
    ensures Inv(Apply(w, step), w.older)
  {
    match step
    case Tick(ms) => TickKeeps(w.db, w.older, ms);
    case Reads(child) => 
  }

  lemma SpawnsKeep(w: World, step: Step)
    requires Inv(w.db, w.older) && (step.Spawns? || step.Claims?)
    ensures Inv(Apply(w, step), w.older)
  {
    match step
    case Spawns(s) => SpawnStepKeeps(w.db, w.older, s, w.seed);
    case Claims(queue, token, leaseMs, limit, picked) => 
      ClaimKeeps(w.db, w.older, queue, token, leaseMs, limit, picked, w.seed);
  }

  lemma EventStepKeeps(w: World, step: Step)
    requires Inv(w.db, w.older) && (step.Emits? || step.Awaits?)
    ensures Inv(Apply(w, step), w.older)
  {
    match step
    case Emits(queue, name, text) => EmitKeeps(w.db, w.older, queue, name, text, w.seed);
    case Awaits(a, event, timeoutMs) => AwaitKeeps(w.db, w.older, a, event, timeoutMs, w.seed);
  }

  lemma RecordStepKeeps(w: World, step: Step)
    requires Inv(w.db, w.older) && StampsAreSpent(w) && step.Records?
    ensures Inv(Apply(w, step), w.older)
  {
    if step.read in w.seen && !step.read.outcome.state.Live() {
      RecordKeeps(w.db, w.older, step.a, step.read.child, step.read.stamp, step.read.outcome, w.seed);
    }
  }

  lemma ReviveKeeps(w: World, step: Step)
    requires Inv(w.db, w.older) && step.Revives?
    ensures Inv(Apply(w, step), OlderAfter(w, step))
  {
    RetryTaskKeeps(w.db, w.older, step.queue, step.taskId, step.top, step.runId, w.seed);
  }

  lemma OlderBuildStepKeeps(w: World, step: Step)
    requires Inv(w.db, w.older) && step.OlderBuild?
    ensures Inv(Apply(w, step), OlderAfter(w, step))
  {
    OlderBuildKeeps(w.db, w.older, step.taskId, step.state, step.text, w.seed);
  }

  lemma RowsKeep(w: World, step: Step)
    requires Inv(w.db, w.older) && StampsAreSpent(w)
    ensures Inv(Apply(w, step), OlderAfter(w, step))
  {
    if step.Revives? {
      ReviveKeeps(w, step);
    } else if step.OlderBuild? {
      OlderBuildStepKeeps(w, step);
    } else if step.Records? {
      RecordStepKeeps(w, step);
    } else if step.Completes? || step.Fails? {
      WorkerEndingKeeps(w, step);
    } else if step.Cancels? {
      CancellationKeeps(w, step);
    } else if step.SweepsLaunch? || step.SweepsClaim? {
      SweepKeeps(w, step);
    } else if step.Activates? || step.Heartbeats? {
      LaunchKeeps(w, step);
    } else if step.Expires? || step.Checkpoints? {
      LeaseKeeps(w, step);
    } else if step.Suspends? || step.Defers? {
      SuspensionKeeps(w, step);
    } else if step.Tick? || step.Reads? {
      ClockKeeps(w, step);
    } else if step.Spawns? || step.Claims? {
      SpawnsKeep(w, step);
    } else {
      EventStepKeeps(w, step);
    }
  }

  // ------------------------------------------------------------------------------------------
  // Stamps and claims.

  lemma TasksAndEventsGrow(w: World, step: Step)
    ensures TasksGrow(w.db, Apply(w, step), w.seed) && EventsGrow(w.db, Apply(w, step))
  {
    if step.Claims? {
      ClaimGrows(w.db, step.queue, step.token, step.leaseMs, step.limit, step.picked, w.seed);
    } else if step.Awaits? {
      AwaitGrows(w.db, step.a, step.event, step.timeoutMs, w.seed);
    } else {
      StepGrows(w, step);
    }
  }

  lemma StampsKeep(w: World, step: Step)
    requires StampsAreSpent(w)
    ensures StampsAreSpent(Next(w, step))
  {
    TasksAndEventsGrow(w, step);
  }

  /** No step but its own token's claim lets a token hold more runs. */
  lemma HeldShrinks(w: World, step: Step, queue: string, token: string)
    requires !step.Claims?
    ensures Held(Apply(w, step), queue, token) <= Held(w.db, queue, token)
  {
    if step.Awaits? {
      AwaitGrows(w.db, step.a, step.event, step.timeoutMs, w.seed);
    } else {
      StepGrows(w, step);
    }
    var after := Apply(w, step);
    forall id | id in Held(after, queue, token) ensures id in Held(w.db, queue, token) {
      assert id in w.db.runs && RunGrows(w.db, id, w.db.runs[id], after.runs[id]);
    }
  }

  /** A claim's token holds what it picked. */
  lemma HeldAfterClaim(db: Db, queue: string, token: string, leaseMs: nat, limit: nat, picked: set<string>, seed: nat)
    requires ClaimAdmits(db, queue, token, leaseMs, limit, picked)
    ensures Held(Claim(db, queue, token, leaseMs, limit, picked, seed), queue, token) <= picked
  {
    ClaimGrows(db, queue, token, leaseMs, limit, picked, seed);
    var after := Claim(db, queue, token, leaseMs, limit, picked, seed);
    forall id | id in Held(after, queue, token) ensures id in picked {
      assert id !in Held(db, queue, token);
    }
  }

  /** No other token, in this queue or another, holds more after a claim. */
  lemma HeldBesideClaim(db: Db, queue: string, token: string, leaseMs: nat, limit: nat, picked: set<string>, seed: nat,
                        otherQueue: string, other: string)
    requires otherQueue != queue || other != token || !ClaimAdmits(db, queue, token, leaseMs, limit, picked)
    ensures Held(Claim(db, queue, token, leaseMs, limit, picked, seed), otherQueue, other) <= Held(db, otherQueue, other)
  {
    ClaimGrows(db, queue, token, leaseMs, limit, picked, seed);
  }

  lemma Smaller(one: set<string>, other: set<string>)
    requires one <= other
    ensures |one| <= |other|
  {
    if one != {} {
      var id :| id in one;
      Smaller(one - {id}, other - {id});
    }
  }

  lemma ClaimsKeep(w: World, step: Step)
    requires ClaimsBounded(w)
    ensures ClaimsBounded(Next(w, step))
  {
    var after := Next(w, step);
    forall queue, token
      ensures |Held(after.db, queue, token)| <= (if (queue, token) in after.asked then after.asked[(queue, token)] else 0)
    {
      if step.Claims? {
        if queue == step.queue && token == step.token
           && ClaimAdmits(w.db, queue, token, step.leaseMs, step.limit, step.picked) {
          HeldAfterClaim(w.db, queue, token, step.leaseMs, step.limit, step.picked, w.seed);
          Smaller(Held(after.db, queue, token), step.picked);
        } else {
          HeldBesideClaim(w.db, step.queue, step.token, step.leaseMs, step.limit, step.picked, w.seed, queue, token);
          Smaller(Held(after.db, queue, token), Held(w.db, queue, token));
        }
      } else {
        HeldShrinks(w, step, queue, token);
        Smaller(Held(after.db, queue, token), Held(w.db, queue, token));
      }
    }
  }

  // ------------------------------------------------------------------------------------------
  // Every history.

  lemma StepKeeps(w: World, step: Step)
    requires WorldInv(w)
    ensures WorldInv(Next(w, step))
  {
    RowsKeep(w, step);
    StampsKeep(w, step);
    ClaimsKeep(w, step);
  }

  lemma {:induction false} RunKeeps(w: World, steps: seq<Step>)
    requires WorldInv(w)
    ensures WorldInv(After(w, steps))
    decreases |steps|
  {
    if steps != [] {
      StepKeeps(w, steps[0]);
      RunKeeps(Next(w, steps[0]), steps[1..]);
    }
  }

  lemma EmptyIsSound(now: int)
    ensures WorldInv(Empty(now))
  {
  }

  /** Any history of batches from the empty database. */
  lemma ReachableIsSound(now: int, steps: seq<Step>)
    ensures WorldInv(After(Empty(now), steps))
  {
    EmptyIsSound(now);
    RunKeeps(Empty(now), steps);
  }
}
