/**
 * Every write batch as the statements it runs, delivered once, twice back to back, or late: any
 * batches may come between, and a delivery that never ran may be sent again.
 */
module Deliveries {
  import opened Options
  import opened Tables
  import opened Protocol
  import opened ProtocolInvariant
  import opened ProtocolHistory
  import opened ProtocolRuns
  import opened ProtocolFollows
  import opened ProtocolOrdinals
  import opened ProtocolTheorems
  import opened Statements
  import opened Batches
  import opened FailBatch
  import opened Sweeps
  import opened OtherBatches
  import opened LeaseBatches

  /** The task a batch names beside its run: what a read of the run, or the sweep's scan, answered before. */
  function TaskOf(db: Db, id: string): string {
    if id in db.runs then db.runs[id].taskId else ""
  }

  function SweepOf(step: Step): Sweeping
    requires step.SweepsLaunch? || step.SweepsClaim?
  {
    match step
    case SweepsLaunch(queue, id, gen, passId) => Sweeping(queue, id, gen, passId)
    case SweepsClaim(queue, id, gen, nextId) => Sweeping(queue, id, gen, nextId)
  }

  function ParkingOf(step: Step): Parking
    requires step.Suspends? || step.Defers?
  {
    match step
    case Suspends(queue, id, token, wakeAt, marker) => Suspension(queue, id, token, wakeAt, marker)
    case Defers(queue, id, token, gen, wakeAt) => Deferral(queue, id, token, wakeAt, gen)
  }

  /** A batch that names a run nobody has is not sent: the read before it, or the scan, found none. */
  predicate NamesARun(db: Db, step: Step) {
    match step
    case Completes(_, id, _, _) => id in db.runs
    case Fails(f) => f.runId in db.runs
    case SweepsLaunch(_, id, _, _) => id in db.runs
    case SweepsClaim(_, id, _, _) => id in db.runs
    case _ => true
  }

  /** One delivery: the statements of the batch in their order. A batch of one statement is that statement. */
  function Delivered(w: World, step: Step): Db {
    var db, seed := w.db, w.seed;
    if !NamesARun(db, step) then db
    else
      match step
      case Spawns(sp) => SpawnStatements(db, sp, seed)
      case Claims(queue, token, leaseMs, limit, picked) => ClaimStatements(db, Claiming(queue, token, leaseMs, limit, picked), seed)
      case Activates(queue, id, token, gen) => ActivateStatements(db, Activating(queue, id, token, gen), seed)
      case Checkpoints(queue, id, token, extendMs, owed) => SaveStatements(db, Saving(queue, id, token, extendMs, owed), seed)
      case Suspends(_, _, _, _, _) => ParkStatements(db, ParkingOf(step), seed)
      case Defers(_, _, _, _, _) => ParkStatements(db, ParkingOf(step), seed)
      case Completes(queue, id, token, result) => CompleteBatch(db, queue, id, token, result, TaskOf(db, id), seed)
      case Fails(f) => FailStatements(db, f, TaskOf(db, f.runId), seed)
      case SweepsLaunch(_, id, _, _) => LaunchStatements(db, SweepOf(step), TaskOf(db, id), seed)
      case SweepsClaim(_, id, _, _) => TimeoutStatements(db, SweepOf(step), TaskOf(db, id), seed)
      case Cancels(queue, taskId, deadlineOnly, unlessSaga) =>
        CancelStatements(db, Cancelling(queue, taskId, deadlineOnly, unlessSaga), seed)
      case Revives(queue, taskId, top, runId) => ReviveStatements(db, Reviving(queue, taskId, top, runId), seed)
      case Emits(queue, name, text) => EmitStatements(db, Emitting(queue, name, text), seed)
      case Awaits(a, event, timeoutMs) => AwaitStatements(db, Awaiting(a, event, timeoutMs), seed)
      case _ => Apply(w, step)
  }

  /** What this invocation's rows are, whatever came since it was delivered, if it was. */
  ghost predicate Stands(db: Db, step: Step, seed: nat) {
    match step
    case Claims(queue, token, leaseMs, limit, picked) => ClaimStands(db, Claiming(queue, token, leaseMs, limit, picked), seed)
    case Activates(queue, id, token, gen) => ActivationStands(db, Activating(queue, id, token, gen), seed)
    case Checkpoints(queue, id, token, extendMs, owed) => SavingStands(db, Saving(queue, id, token, extendMs, owed), seed)
    case Suspends(_, _, _, _, _) => ParkingStands(db, ParkingOf(step), seed)
    case Defers(_, _, _, _, _) => ParkingStands(db, ParkingOf(step), seed)
    case Completes(queue, id, _, _) => id in db.runs ==> CompletionStands(db, queue, id, TaskOf(db, id), seed)
    case Fails(f) => f.runId in db.runs ==> FailureStands(db, f, TaskOf(db, f.runId), seed)
    case SweepsLaunch(_, id, _, _) => id in db.runs ==> LaunchStands(db, SweepOf(step), TaskOf(db, id), seed)
    case SweepsClaim(_, id, _, _) => id in db.runs ==> TimeoutStands(db, SweepOf(step), TaskOf(db, id), seed)
    case Cancels(queue, taskId, deadlineOnly, unlessSaga) =>
      CancellationStands(db, Cancelling(queue, taskId, deadlineOnly, unlessSaga), seed)
    case Revives(queue, taskId, top, runId) => RevivalStands(db, Reviving(queue, taskId, top, runId), seed)
    case Emits(_, _, _) => NoneHalfWoken(db, seed)
    case Awaits(a, event, timeoutMs) => AwaitStands(db, Awaiting(a, event, timeoutMs), seed)
    case _ => true
  }

  /** The batch ended its task, and a revival brought the task back since. */
  ghost predicate Undone(db: Db, step: Step, seed: nat) {
    match step
    case Fails(f) => BroughtBack(db, f, TaskOf(db, f.runId), seed)
    case SweepsLaunch(_, id, _, _) => CapUndone(db, SweepOf(step), TaskOf(db, id), By(seed, "cap"))
    case SweepsClaim(_, id, _, _) => CapUndone(db, SweepOf(step), TaskOf(db, id), By(seed, "fail"))
    case _ => false
  }

  predicate MintsNew(db: Db, step: Step) {
    Mints(step).Some? ==> Mints(step).value !in db.runs
  }

  /** The same batch again: what its statements read of the rows or the clock, they read again. */
  predicate Resends(step: Step, again: Step) {
    match step
    case Claims(queue, token, leaseMs, limit, _) =>
      again.Claims? && again.queue == queue && again.token == token && again.leaseMs == leaseMs && again.limit == limit
    case Revives(queue, taskId, _, runId) =>
      again.Revives? && again.queue == queue && again.taskId == taskId && again.runId == runId
    case Checkpoints(queue, id, token, extendMs, _) =>
      again.Checkpoints? && again.queue == queue && again.id == id && again.token == token && again.extendMs == extendMs
    case Suspends(queue, id, token, _, marker) =>
      again.Suspends? && again.queue == queue && again.id == id && again.token == token && again.marker == marker
    case Defers(queue, id, token, gen, _) =>
      again.Defers? && again.queue == queue && again.id == id && again.token == token && again.gen == gen
    case _ => again == step
  }

  lemma ResentStands(db: Db, step: Step, again: Step, seed: nat)
    requires Resends(step, again) && Stands(db, step, seed)
    ensures Stands(db, again, seed) && (Undone(db, again, seed) <==> Undone(db, step, seed))
  {
  }

  // ------------------------------------------------------------------------------------------
  // The batches by what they do.

  predicate IsEnding(step: Step) { step.Completes? || step.Fails? || step.Cancels? }

  predicate IsSweep(step: Step) { step.SweepsLaunch? || step.SweepsClaim? }

  /** A batch of a claim's holder that starts, saves or parks. */
  predicate IsOfAClaim(step: Step) { step.Activates? || step.Checkpoints? || step.Suspends? || step.Defers? }

  predicate IsOpening(step: Step) { step.Spawns? || step.Claims? || step.Revives? || step.Emits? || step.Awaits? }

  /** One statement, or none of this store's. */
  predicate IsBare(step: Step) { !IsEnding(step) && !IsSweep(step) && !IsOfAClaim(step) && !IsOpening(step) }

  // ------------------------------------------------------------------------------------------
  // A delivery over rows this invocation may have written before.

  lemma EndingDelivers(w: World, step: Step)
    requires Inv(w.db, w.older) && Stands(w.db, step, w.seed) && NamesARun(w.db, step) && IsEnding(step)
    ensures Delivered(w, step) == Apply(w, step) <==> !Undone(w.db, step, w.seed)
  {
    hide Inv, Fail, Complete, Cancel, FailStatements, CancelStatements, CompleteBatch, BroughtBack, FailureStands,
         CompletionStands, CancellationStands;
    var db, older, seed := w.db, w.older, w.seed;
    match step
    case Completes(queue, id, token, result) => CompleteDelivers(db, older, queue, id, token, result, TaskOf(db, id), seed);
    case Fails(f) => FailDelivers(db, older, f, TaskOf(db, f.runId), seed);
    case Cancels(queue, taskId, deadlineOnly, unlessSaga) =>
      CancelDelivers(db, older, Cancelling(queue, taskId, deadlineOnly, unlessSaga), seed);
  }

  lemma SweepDelivers(w: World, step: Step)
    requires Inv(w.db, w.older) && Stands(w.db, step, w.seed) && NamesARun(w.db, step) && IsSweep(step)
    ensures Delivered(w, step) == Apply(w, step) <==> !Undone(w.db, step, w.seed)
  {
    hide Inv, SweepLostLaunch, SweepClaimTimeout, LaunchStatements, TimeoutStatements, CapUndone, LaunchStands, TimeoutStands;
    var db, older, seed := w.db, w.older, w.seed;
    match step
    case SweepsLaunch(_, id, _, _) => LaunchDelivers(db, older, SweepOf(step), TaskOf(db, id), seed);
    case SweepsClaim(_, id, _, _) => TimeoutDelivers(db, older, SweepOf(step), TaskOf(db, id), seed);
  }

  lemma ClaimedDelivers(w: World, step: Step)
    requires Stands(w.db, step, w.seed) && IsOfAClaim(step)
    ensures Delivered(w, step) == Apply(w, step)
  {
    hide Activate, SetCheckpoint, Suspend, DeferLaunch, ActivateStatements, SaveStatements, ParkStatements, ActivationStands,
         SavingStands, ParkingStands;
    var db, seed := w.db, w.seed;
    match step
    case Activates(queue, id, token, gen) => ActivateDelivers(db, Activating(queue, id, token, gen), seed);
    case Checkpoints(queue, id, token, extendMs, owed) => SaveDelivers(db, Saving(queue, id, token, extendMs, owed), seed);
    case Suspends(_, _, _, _, _) => ParkDelivers(db, ParkingOf(step), seed);
    case Defers(_, _, _, _, _) => ParkDelivers(db, ParkingOf(step), seed);
  }

  lemma OpeningDelivers(w: World, step: Step)
    requires Inv(w.db, w.older) && Stands(w.db, step, w.seed) && IsOpening(step)
    ensures Delivered(w, step) == Apply(w, step)
  {
    hide Inv, Spawn, Claim, RetryTask, EmitEvent, AwaitEvent, SpawnStatements, ClaimStatements, ReviveStatements,
         EmitStatements, AwaitStatements, ClaimStands, RevivalStands, NoneHalfWoken, AwaitStands;
    var db, older, seed := w.db, w.older, w.seed;
    match step
    case Spawns(sp) => SpawnDelivers(db, older, sp, seed);
    case Claims(queue, token, leaseMs, limit, picked) =>
      ClaimDelivers(db, older, Claiming(queue, token, leaseMs, limit, picked), seed);
    case Revives(queue, taskId, top, runId) => ReviveDelivers(db, older, Reviving(queue, taskId, top, runId), seed);
    case Emits(queue, name, text) => EmitDelivers(db, Emitting(queue, name, text), seed);
    case Awaits(a, event, timeoutMs) => AwaitDelivers(db, older, Awaiting(a, event, timeoutMs), seed);
  }

  lemma BareDelivers(w: World, step: Step)
    requires IsBare(step)
    ensures Delivered(w, step) == Apply(w, step)
  {
    hide Apply;
  }

  /** A batch that names no run is not sent, and its step is refused. */
  lemma UnnamedDelivers(w: World, step: Step)
    requires !NamesARun(w.db, step)
    ensures Delivered(w, step) == Apply(w, step) == w.db && !Undone(w.db, step, w.seed)
  {
  }

  lemma OnlyEndingsAreUndone(db: Db, step: Step, seed: nat)
    requires !IsEnding(step) && !IsSweep(step)
    ensures !Undone(db, step, seed)
  {
  }

  /** The statements are the one atomic step, unless the batch ended a task that a revival brought back. */
  lemma Delivers(w: World, step: Step)
    requires Inv(w.db, w.older) && Stands(w.db, step, w.seed)
    ensures Delivered(w, step) == Apply(w, step) <==> !Undone(w.db, step, w.seed)
  {
    hide Inv, Stands, Delivered, Apply, Undone, NamesARun;
    if !NamesARun(w.db, step) {
      UnnamedDelivers(w, step);
    } else if IsEnding(step) {
      EndingDelivers(w, step);
    } else if IsSweep(step) {
      SweepDelivers(w, step);
    } else {
      OnlyEndingsAreUndone(w.db, step, w.seed);
      if IsOfAClaim(step) {
        ClaimedDelivers(w, step);
      } else if IsOpening(step) {
        OpeningDelivers(w, step);
      } else {
        BareDelivers(w, step);
      }
    }
  }

  /** A batch that was never delivered stands for nothing. */
  lemma UnsentStands(db: Db, step: Step, seed: nat)
    requires Unspent(db, seed) && MintsNew(db, step)
    ensures Stands(db, step, seed)
  {
    hide Unspent, CapStands;
    match step
    case SweepsLaunch(_, id, _, _) => if id in db.runs { LaunchUnspent(db, SweepOf(step), TaskOf(db, id), seed); }
    case SweepsClaim(_, id, _, _) => if id in db.runs { TimeoutUnspent(db, SweepOf(step), TaskOf(db, id), seed); }
    case _ => UnsentStandsByItself(db, step, seed);
  }

  lemma UnsentStandsByItself(db: Db, step: Step, seed: nat)
    requires Unspent(db, seed) && MintsNew(db, step) && !IsSweep(step)
    ensures Stands(db, step, seed)
  {
  }

  /** A run keeps its task whatever comes. */
  lemma NamedRunStays(db: Db, after: Db, id: string, seed: nat)
    requires Follows(db, after, seed) && id in db.runs
    ensures id in after.runs && TaskOf(after, id) == TaskOf(db, id)
  {
  }

  lemma EndingLeaves(w: World, step: Step)
    requires Inv(w.db, w.older) && Stands(w.db, step, w.seed) && NamesARun(w.db, step) && IsEnding(step)
    ensures Stands(Apply(w, step), step, w.seed)
  {
    hide Inv, FailureStands, CompletionStands, CancellationStands, Fail, Complete, Cancel, Follows;
    var db, older, seed := w.db, w.older, w.seed;
    StepFollows(w, step, seed + 1);
    match step
    case Completes(queue, id, token, result) =>
      NamedRunStays(db, Apply(w, step), id, seed + 1);
      CompleteLeaves(db, older, queue, id, token, result, TaskOf(db, id), seed);
    case Fails(f) =>
      NamedRunStays(db, Apply(w, step), f.runId, seed + 1);
      FailLeaves(db, older, f, TaskOf(db, f.runId), seed);
    case Cancels(queue, taskId, deadlineOnly, unlessSaga) =>
      CancelLeaves(db, older, Cancelling(queue, taskId, deadlineOnly, unlessSaga), seed);
  }

  lemma SweepLeaves(w: World, step: Step)
    requires Inv(w.db, w.older) && Stands(w.db, step, w.seed) && NamesARun(w.db, step) && IsSweep(step)
    ensures Stands(Apply(w, step), step, w.seed)
  {
    hide Inv, LaunchStands, TimeoutStands, SweepLostLaunch, SweepClaimTimeout, Follows;
    var db, older, seed := w.db, w.older, w.seed;
    StepFollows(w, step, seed + 1);
    NamedRunStays(db, Apply(w, step), step.id, seed + 1);
    match step
    case SweepsLaunch(_, id, _, _) => LaunchLeaves(db, older, SweepOf(step), TaskOf(db, id), seed);
    case SweepsClaim(_, id, _, _) => TimeoutLeaves(db, older, SweepOf(step), TaskOf(db, id), seed);
  }

  lemma ClaimedLeaves(w: World, step: Step)
    requires Stands(w.db, step, w.seed) && IsOfAClaim(step)
    ensures Stands(Apply(w, step), step, w.seed)
  {
    hide Activate, SetCheckpoint, Suspend, DeferLaunch, ActivationStands, SavingStands, ParkingStands;
    var db, seed := w.db, w.seed;
    match step
    case Activates(queue, id, token, gen) => ActivateLeaves(db, Activating(queue, id, token, gen), seed);
    case Checkpoints(queue, id, token, extendMs, owed) => SaveLeaves(db, Saving(queue, id, token, extendMs, owed), seed);
    case Suspends(_, _, _, _, _) => ParkLeaves(db, ParkingOf(step), seed);
    case Defers(_, _, _, _, _) => ParkLeaves(db, ParkingOf(step), seed);
  }

  lemma OpeningLeaves(w: World, step: Step)
    requires Stands(w.db, step, w.seed) && IsOpening(step)
    ensures Stands(Apply(w, step), step, w.seed)
  {
    hide Spawn, Claim, RetryTask, EmitEvent, AwaitEvent, ClaimStands, RevivalStands, NoneHalfWoken, AwaitStands;
    var db, seed := w.db, w.seed;
    match step
    case Spawns(_) =>
    case Claims(queue, token, leaseMs, limit, picked) => ClaimLeaves(db, Claiming(queue, token, leaseMs, limit, picked), seed);
    case Revives(queue, taskId, top, runId) => ReviveLeaves(db, Reviving(queue, taskId, top, runId), seed);
    case Emits(queue, name, text) => EmitLeaves(db, Emitting(queue, name, text), seed);
    case Awaits(a, event, timeoutMs) => AwaitLeaves(db, Awaiting(a, event, timeoutMs), seed);
  }

  lemma BareStands(db: Db, step: Step, seed: nat)
    requires IsBare(step)
    ensures Stands(db, step, seed)
  {
  }

  /** The one atomic step leaves this invocation's rows standing. */
  lemma Leaves(w: World, step: Step)
    requires Inv(w.db, w.older) && Stands(w.db, step, w.seed) && NamesARun(w.db, step)
    ensures Stands(Apply(w, step), step, w.seed)
  {
    hide Inv, Stands, Apply, NamesARun;
    if IsEnding(step) {
      EndingLeaves(w, step);
    } else if IsSweep(step) {
      SweepLeaves(w, step);
    } else if IsOfAClaim(step) {
      ClaimedLeaves(w, step);
    } else if IsOpening(step) {
      OpeningLeaves(w, step);
    } else {
      BareStands(Apply(w, step), step, w.seed);
    }
  }

  lemma EndingStandsOn(db: Db, after: Db, step: Step, seed: nat)
    requires Stands(db, step, seed) && Follows(db, after, seed) && NamesARun(db, step) && IsEnding(step)
    requires MintsNew(db, step) ==> MintsNew(after, step)
    ensures Stands(after, step, seed)
  {
    hide Follows, FailureStands, CompletionStands, CancellationStands;
    match step
    case Completes(queue, id, token, result) =>
      NamedRunStays(db, after, id, seed);
      CompletionStandsOn(db, after, queue, id, TaskOf(db, id), seed);
    case Fails(f) =>
      NamedRunStays(db, after, f.runId, seed);
      FailureStandsOn(db, after, f, TaskOf(db, f.runId), seed);
    case Cancels(queue, taskId, deadlineOnly, unlessSaga) =>
      CancellationStandsOn(db, after, Cancelling(queue, taskId, deadlineOnly, unlessSaga), seed);
  }

  lemma SweepStandsOn(db: Db, after: Db, step: Step, seed: nat)
    requires Stands(db, step, seed) && Follows(db, after, seed) && NamesARun(db, step) && IsSweep(step)
    requires MintsNew(db, step) ==> MintsNew(after, step)
    ensures Stands(after, step, seed)
  {
    hide Follows, LaunchStands, TimeoutStands;
    NamedRunStays(db, after, step.id, seed);
    match step
    case SweepsLaunch(_, id, _, _) => LaunchStandsOn(db, after, SweepOf(step), TaskOf(db, id), seed);
    case SweepsClaim(_, id, _, _) => TimeoutStandsOn(db, after, SweepOf(step), TaskOf(db, id), seed);
  }

  lemma ClaimedStandsOn(db: Db, after: Db, step: Step, seed: nat)
    requires Stands(db, step, seed) && Follows(db, after, seed) && IsOfAClaim(step)
    ensures Stands(after, step, seed)
  {
    hide Follows, ActivationStands, SavingStands, ParkingStands;
    match step
    case Activates(queue, id, token, gen) => ActivationStandsOn(db, after, Activating(queue, id, token, gen), seed);
    case Checkpoints(queue, id, token, extendMs, owed) =>
      SavingStandsOn(db, after, Saving(queue, id, token, extendMs, owed), seed);
    case Suspends(_, _, _, _, _) => ParkingStandsOn(db, after, ParkingOf(step), seed);
    case Defers(_, _, _, _, _) => ParkingStandsOn(db, after, ParkingOf(step), seed);
  }

  lemma OpeningStandsOn(db: Db, after: Db, step: Step, seed: nat)
    requires Stands(db, step, seed) && Follows(db, after, seed) && IsOpening(step)
    ensures Stands(after, step, seed)
  {
    hide Follows, ClaimStands, RevivalStands, NoneHalfWoken, AwaitStands;
    match step
    case Spawns(_) =>
    case Claims(queue, token, leaseMs, limit, picked) =>
      ClaimStandsOn(db, after, Claiming(queue, token, leaseMs, limit, picked), seed);
    case Revives(queue, taskId, top, runId) => RevivalStandsOn(db, after, Reviving(queue, taskId, top, runId), seed);
    case Emits(_, _, _) => NoneHalfWokenOn(db, after, seed);
    case Awaits(a, event, timeoutMs) => AwaitStandsOn(db, after, Awaiting(a, event, timeoutMs), seed);
  }

  /** Other batches leave it standing, as none mints the id this one minted. */
  lemma StandsOn(db: Db, after: Db, step: Step, seed: nat)
    requires Stands(db, step, seed) && Follows(db, after, seed) && NamesARun(db, step)
    requires MintsNew(db, step) ==> MintsNew(after, step)
    ensures Stands(after, step, seed)
  {
    hide Stands, Follows, NamesARun, MintsNew;
    if IsEnding(step) {
      EndingStandsOn(db, after, step, seed);
    } else if IsSweep(step) {
      SweepStandsOn(db, after, step, seed);
    } else if IsOfAClaim(step) {
      ClaimedStandsOn(db, after, step, seed);
    } else if IsOpening(step) {
      OpeningStandsOn(db, after, step, seed);
    } else {
      BareStands(after, step, seed);
    }
  }

  // ------------------------------------------------------------------------------------------
  // The ids batches mint.

  /** No two of the batches mint one id, and no run has it before them. */
  ghost predicate FreshMints(db: Db, steps: seq<Step>) {
    && (forall i :: 0 <= i < |steps| ==> MintsNew(db, steps[i]))
    && (forall i, j :: 0 <= i < j < |steps| && Mints(steps[i]).Some? ==> Mints(steps[i]) != Mints(steps[j]))
  }

  lemma MintsStayFresh(w: World, steps: seq<Step>)
    requires steps != [] && FreshMints(w.db, steps)
    ensures FreshMints(Apply(w, steps[0]), steps[1..])
  {
    var rest := steps[1..];
    forall i | 0 <= i < |rest| ensures MintsNew(Apply(w, steps[0]), rest[i]) {
      assert rest[i] == steps[i + 1];
      if Mints(rest[i]).Some? && Mints(rest[i]).value in Apply(w, steps[0]).runs {
        NewRunIsMinted(w, steps[0], Mints(rest[i]).value);
      }
    }
  }

  lemma {:induction false} MintStaysNew(w: World, between: seq<Step>, step: Step)
    requires MintsNew(w.db, step) && forall i :: 0 <= i < |between| && Mints(step).Some? ==> Mints(between[i]) != Mints(step)
    ensures MintsNew(After(w, between).db, step)
    decreases |between|
  {
    if between != [] {
      if Mints(step).Some? && Mints(step).value in Apply(w, between[0]).runs {
        NewRunIsMinted(w, between[0], Mints(step).value);
      }
      MintStaysNew(Next(w, between[0]), between[1..], step);
    }
  }

  // ------------------------------------------------------------------------------------------
  // Late deliveries.

  /** The world when a batch is sent: the delivery ran, or a crash lost it. */
  function Sent(w: World, step: Step, lost: bool): World {
    if lost then w.(seed := w.seed + 1) else Next(w, step)
  }

  /** No batch between mints the id of this one. */
  ghost predicate MintsApart(step: Step, between: seq<Step>) {
    forall i :: 0 <= i < |between| && Mints(step).Some? ==> Mints(between[i]) != Mints(step)
  }

  /** The world in which a batch sent from `w` is delivered again, or for the first time: under its own seed. */
  function Redelivery(w: World, step: Step, lost: bool, between: seq<Step>): World {
    After(Sent(w, step, lost), between).(seed := w.seed)
  }

  lemma SentStands(w: World, step: Step, lost: bool)
    requires WorldInv(w) && AllUnspent(w) && MintsNew(w.db, step) && NamesARun(w.db, step)
    ensures WorldInv(Sent(w, step, lost)) && Stands(Sent(w, step, lost).db, step, w.seed)
  {
    UnsentStands(w.db, step, w.seed);
    StepKeeps(w, step);
    Leaves(w, step);
  }

  lemma StandsAfter(w: World, step: Step, lost: bool, between: seq<Step>)
    requires WorldInv(w) && AllUnspent(w) && MintsNew(w.db, step) && NamesARun(w.db, step) && MintsApart(step, between)
    ensures Stands(After(Sent(w, step, lost), between).db, step, w.seed)
  {
    hide AllUnspent, Delivered, Stands, Inv, StampsAreSpent, ClaimsBounded;
    var sent := Sent(w, step, lost);
    SentStands(w, step, lost);
    SentNamesARun(w, step, lost);
    HistoryFollows(sent, between, w.seed);
    if MintsNew(sent.db, step) { MintStaysNew(sent, between, step); }
    StandsOn(sent.db, After(sent, between).db, step, w.seed);
  }

  lemma SentNamesARun(w: World, step: Step, lost: bool)
    requires WorldInv(w) && NamesARun(w.db, step)
    ensures NamesARun(Sent(w, step, lost).db, step)
  {
    StepFollows(w, step, w.seed + 1);
  }

  /**
   * However late a batch is delivered again, whether its first delivery ran or not, and whatever
   * batches came between, its statements are its one atomic step taken then. The exception is
   * exact: a failure or a sweep that ended its task, when a revival brought the task back.
   */
  lemma LateDelivery(w: World, step: Step, lost: bool, between: seq<Step>, again: Step)
    requires WorldInv(w) && AllUnspent(w) && MintsNew(w.db, step) && NamesARun(w.db, step) && MintsApart(step, between)
    requires Resends(step, again)
    ensures var late := Redelivery(w, step, lost, between);
      Delivered(late, again) == Apply(late, again) <==> !Undone(late.db, step, w.seed)
  {
    hide AllUnspent, Delivered, Apply, Stands, MintsApart;
    var late := Redelivery(w, step, lost, between);
    StandsAfter(w, step, lost, between);
    SentStands(w, step, lost);
    RunKeeps(Sent(w, step, lost), between);
    ResentStands(late.db, step, again, w.seed);
    Delivers(late, again);
  }

  /** Batches that end, place or record something, or receive a launch, which nothing later makes them do again. */
  predicate ActsOnce(step: Step) {
    || step.Spawns? || step.Completes? || step.Fails? || step.Cancels? || step.Revives? || step.SweepsLaunch? || step.SweepsClaim?
    || step.Activates? || step.Defers? || step.Records?
  }

  lemma LaunchEndsItsClaim(db: Db, queue: string, id: string, gen: nat, passId: string, seed: nat)
    ensures SweepLostLaunch(db, queue, id, gen, passId, seed) == db
         || ClaimOver(SweepLostLaunch(db, queue, id, gen, passId, seed), id, gen)
  {
    hide Current, AtCap, RelaunchBackoffMs;
    if Swept(db, queue, id, gen) && passId !in db.runs {
      SweptIsOwned(db, queue, id, gen);
      AtCapCloses(db, id, passId, REASON_RELAUNCH_CAP, Closing(Failed, false, true, By(seed, "cap")), By(seed, "task-fail"), seed);
    }
  }

  lemma TimeoutEndsItsClaim(db: Db, queue: string, id: string, gen: nat, nextId: string, seed: nat)
    ensures SweepClaimTimeout(db, queue, id, gen, nextId, seed) == db
         || ClaimOver(SweepClaimTimeout(db, queue, id, gen, nextId, seed), id, gen)
  {
    hide Current, AtCap, Accounted;
    if Swept(db, queue, id, gen) && nextId !in db.runs {
      SweptIsOwned(db, queue, id, gen);
      AtCapCloses(db, id, nextId, REASON_INFRA_CAP, Closing(Failed, false, false, By(seed, "fail")), By(seed, "task-terminal"), seed);
    }
  }

  lemma CompleteCloses(db: Db, queue: string, id: string, token: string, result: string, seed: nat)
    ensures var after := Complete(db, queue, id, token, result, seed);
      after == db || (id in after.runs && after.runs[id].state == Completed)
  {
    hide EndTask, SoleLive;
    if CompleteAdmits(db, queue, id, token) {
      var task := db.tasks[db.runs[id].taskId];
      EndTaskCloses(db, db.runs[id].taskId,
                    task.(state := Completed, result := Some(result), cancelAt := None, stamp := By(seed, "task")),
                    Closing(Completed, true, true, By(seed, "complete")), seed, id);
    }
  }

  lemma CancelEnds(db: Db, queue: string, taskId: string, deadlineOnly: bool, unlessSaga: bool, seed: nat)
    ensures var after := Cancel(db, queue, taskId, deadlineOnly, unlessSaga, seed);
      after == db || (taskId in after.tasks && after.tasks[taskId].state == Cancelled)
  {
  }

  /** A run that ended takes no batch of its worker's, and a cancelled task no cancellation. */
  lemma EndedRefuses(w: World, step: Step)
    requires step.Completes? ==> step.id in w.db.runs && !w.db.runs[step.id].state.Live()
    requires step.Fails? ==> step.f.runId in w.db.runs && !w.db.runs[step.f.runId].state.Live()
    requires step.Cancels? ==> step.taskId in w.db.tasks && !w.db.tasks[step.taskId].state.Live()
    requires step.Completes? || step.Fails? || step.Cancels?
    ensures Apply(w, step) == w.db
  {
  }

  lemma EndingIsFinal(w: World, step: Step, late: World)
    requires (step.Completes? || step.Fails? || step.Cancels?) && Apply(w, step) != w.db
    requires Follows(Apply(w, step), late.db, w.seed)
    ensures Apply(late, step) == late.db
  {
    hide Complete, Fail, Cancel;
    if step.Completes? {
      CompleteCloses(w.db, step.queue, step.id, step.token, step.result, w.seed);
    } else if step.Fails? {
      FailCloses(w.db, step.f, w.seed);
    } else {
      CancelEnds(w.db, step.queue, step.taskId, step.deadlineOnly, step.unlessSaga, w.seed);
    }
    EndedRefuses(late, step);
  }

  lemma PlacingIsFinal(w: World, step: Step, again: Step, late: World)
    requires (step.Spawns? || step.Revives?) && Apply(w, step) != w.db && Follows(Apply(w, step), late.db, w.seed)
    requires Resends(step, again)
    ensures Apply(late, again) == late.db
  {
  }

  lemma RecordingIsFinal(w: World, step: Step, late: World)
    requires step.Records? && Apply(w, step) != w.db && Follows(Apply(w, step), late.db, w.seed)
    ensures Apply(late, step) == late.db
  {
  }

  lemma NeverSweptAgain(w: World, step: Step, between: seq<Step>)
    requires (step.SweepsLaunch? || step.SweepsClaim?) && Apply(w, step) != w.db
    ensures var late := Redelivery(w, step, false, between); Apply(late, step) == late.db
  {
    hide ClaimOver, SweepLostLaunch, SweepClaimTimeout, After;
    match step
    case SweepsLaunch(queue, id, gen, passId) =>
      LaunchEndsItsClaim(w.db, queue, id, gen, passId, w.seed);
      StaleSweepDoesNothing(Next(w, step), between, queue, id, gen, passId, w.seed);
    case SweepsClaim(queue, id, gen, nextId) =>
      TimeoutEndsItsClaim(w.db, queue, id, gen, nextId, w.seed);
      StaleSweepDoesNothing(Next(w, step), between, queue, id, gen, nextId, w.seed);
  }

  /** An activation or a deferral that took effect received its launch. */
  lemma NeverReceivedAgain(w: World, step: Step, between: seq<Step>, again: Step)
    requires (step.Activates? || step.Defers?) && Apply(w, step) != w.db && Resends(step, again)
    ensures var late := Redelivery(w, step, false, between); Apply(late, again) == late.db
  {
    hide After;
    LateLaunchIsRefused(Next(w, step), between, again.queue, again.id, again.token, again.gen);
  }

  /** What a batch of these did stays done: its atomic step is refused ever after. */
  lemma NeverAgain(w: World, step: Step, between: seq<Step>, again: Step)
    requires WorldInv(w) && ActsOnce(step) && Apply(w, step) != w.db && Resends(step, again)
    ensures var late := Redelivery(w, step, false, between); Apply(late, again) == late.db
  {
    hide Follows, WorldInv, Apply, After;
    if step.SweepsLaunch? || step.SweepsClaim? {
      NeverSweptAgain(w, step, between);
    } else if step.Activates? || step.Defers? {
      NeverReceivedAgain(w, step, between, again);
    } else {
      StepKeeps(w, step);
      HistoryFollows(Next(w, step), between, w.seed);
      if step.Spawns? || step.Revives? {
        PlacingIsFinal(w, step, again, Redelivery(w, step, false, between));
      } else if step.Records? {
        RecordingIsFinal(w, step, Redelivery(w, step, false, between));
      } else {
        EndingIsFinal(w, step, Redelivery(w, step, false, between));
      }
    }
  }

  /**
   * A batch that took effect takes none again: however late its duplicate comes, no row changes,
   * exactly unless it ended a task that a revival brought back.
   */
  lemma LateDuplicate(w: World, step: Step, between: seq<Step>, again: Step)
    requires WorldInv(w) && AllUnspent(w) && MintsNew(w.db, step) && NamesARun(w.db, step) && MintsApart(step, between)
    requires ActsOnce(step) && Apply(w, step) != w.db && Resends(step, again)
    ensures var late := Redelivery(w, step, false, between);
      Delivered(late, again) == late.db <==> !Undone(late.db, step, w.seed)
  {
    NeverAgain(w, step, between, again);
    LateDelivery(w, step, false, between, again);
  }

  // ------------------------------------------------------------------------------------------
  // Duplicates, back to back.

  /** The statements of a batch, run one after another in its transaction, are its one atomic step. */
  lemma DeliveredOnce(w: World, step: Step)
    requires Inv(w.db, w.older) && Unspent(w.db, w.seed) && MintsNew(w.db, step)
    ensures Delivered(w, step) == Apply(w, step)
  {
    UnsentStands(w.db, step, w.seed);
    UnspentIsNotUndone(w.db, step, w.seed);
    Delivers(w, step);
  }

  lemma UnspentIsNotUndone(db: Db, step: Step, seed: nat)
    requires Unspent(db, seed)
    ensures !Undone(db, step, seed)
  {
  }

  /** A batch this store sends, and sends again when it must: time and older builds are not. */
  predicate IsSent(step: Step) {
    !step.Tick? && !step.OlderBuild?
  }

  lemma EndingAgain(w: World, step: Step)
    requires Inv(w.db, w.older) && Unspent(w.db, w.seed) && MintsNew(w.db, step) && NamesARun(w.db, step) && IsEnding(step)
    ensures Delivered(w.(db := Apply(w, step)), step) == Apply(w, step)
  {
    hide Inv, Unspent, Follows, FailStatements, CancelStatements, CompleteBatch, Fail, Complete, Cancel;
    var db, older, seed := w.db, w.older, w.seed;
    StepFollows(w, step, seed + 1);
    match step
    case Completes(queue, id, token, result) =>
      NamedRunStays(db, Apply(w, step), id, seed + 1);
      CompleteAgain(db, older, queue, id, token, result, TaskOf(db, id), seed);
    case Fails(f) =>
      NamedRunStays(db, Apply(w, step), f.runId, seed + 1);
      FailAgain(db, older, f, TaskOf(db, f.runId), seed);
    case Cancels(queue, taskId, deadlineOnly, unlessSaga) =>
      CancelAgain(db, older, Cancelling(queue, taskId, deadlineOnly, unlessSaga), seed);
  }

  lemma SweepAgain(w: World, step: Step)
    requires Inv(w.db, w.older) && Unspent(w.db, w.seed) && MintsNew(w.db, step) && NamesARun(w.db, step) && IsSweep(step)
    ensures Delivered(w.(db := Apply(w, step)), step) == Apply(w, step)
  {
    hide Inv, Unspent, Follows, LaunchStatements, TimeoutStatements, SweepLostLaunch, SweepClaimTimeout;
    var db, older, seed := w.db, w.older, w.seed;
    StepFollows(w, step, seed + 1);
    NamedRunStays(db, Apply(w, step), step.id, seed + 1);
    match step
    case SweepsLaunch(_, id, _, _) => LaunchAgain(db, older, SweepOf(step), TaskOf(db, id), seed);
    case SweepsClaim(_, id, _, _) => TimeoutAgain(db, older, SweepOf(step), TaskOf(db, id), seed);
  }

  lemma ClaimedAgain(w: World, step: Step)
    requires Unspent(w.db, w.seed) && IsOfAClaim(step)
    ensures Delivered(w.(db := Apply(w, step)), step) == Apply(w, step)
  {
    hide Unspent, Activate, SetCheckpoint, Suspend, DeferLaunch, ActivateStatements, SaveStatements, ParkStatements;
    var db, seed := w.db, w.seed;
    match step
    case Activates(queue, id, token, gen) => ActivateAgain(db, Activating(queue, id, token, gen), seed);
    case Checkpoints(queue, id, token, extendMs, owed) => SaveAgain(db, Saving(queue, id, token, extendMs, owed), seed);
    case Suspends(_, _, _, _, _) => ParkAgain(db, ParkingOf(step), seed);
    case Defers(_, _, _, _, _) => ParkAgain(db, ParkingOf(step), seed);
  }

  lemma OpeningAgain(w: World, step: Step)
    requires Inv(w.db, w.older) && Unspent(w.db, w.seed) && IsOpening(step)
    ensures Delivered(w.(db := Apply(w, step)), step) == Apply(w, step)
  {
    hide Inv, Unspent, Spawn, Claim, RetryTask, EmitEvent, AwaitEvent, SpawnStatements, ClaimStatements, ReviveStatements,
         EmitStatements, AwaitStatements;
    var db, older, seed := w.db, w.older, w.seed;
    match step
    case Spawns(sp) => SpawnAgain(db, older, sp, seed);
    case Claims(queue, token, leaseMs, limit, picked) =>
      ClaimAgain(db, older, Claiming(queue, token, leaseMs, limit, picked), seed);
    case Revives(queue, taskId, top, runId) => ReviveAgain(db, older, Reviving(queue, taskId, top, runId), seed);
    case Emits(queue, name, text) => EmitAgain(db, older, Emitting(queue, name, text), seed);
    case Awaits(a, event, timeoutMs) => AwaitAgain(db, older, Awaiting(a, event, timeoutMs), seed);
  }

  /** A batch of one statement finds what it wrote, and writes it again. */
  lemma BareAgain(w: World, step: Step)
    requires IsBare(step) && IsSent(step)
    ensures Apply(w.(db := Apply(w, step)), step) == Apply(w, step)
  {
  }

  /** A second delivery of them, back to back, changes nothing. */
  lemma DeliveredAgain(w: World, step: Step)
    requires Inv(w.db, w.older) && Unspent(w.db, w.seed) && MintsNew(w.db, step) && IsSent(step)
    ensures Delivered(w.(db := Apply(w, step)), step) == Apply(w, step)
  {
    hide Inv, Unspent, MintsNew, Apply, Delivered, NamesARun;
    if !NamesARun(w.db, step) {
      UnnamedDelivers(w, step);
    } else if IsEnding(step) {
      EndingAgain(w, step);
    } else if IsSweep(step) {
      SweepAgain(w, step);
    } else if IsOfAClaim(step) {
      ClaimedAgain(w, step);
    } else if IsOpening(step) {
      OpeningAgain(w, step);
    } else {
      BareDelivers(w.(db := Apply(w, step)), step);
      BareAgain(w, step);
    }
  }

  /** A batch, and how often it is delivered before the next one. */
  datatype Sending = Sending(step: Step, times: nat)

  function DeliveredTimes(w: World, step: Step, times: nat): Db {
    if times == 0 then w.db else Delivered(w.(db := DeliveredTimes(w, step, times - 1)), step)
  }

  function AfterSendings(w: World, sendings: seq<Sending>): World
    decreases |sendings|
  {
    if sendings == [] then w
    else
      var sending := sendings[0];
      AfterSendings(Next(w, sending.step).(db := DeliveredTimes(w, sending.step, sending.times)), sendings[1..])
  }

  function StepsOf(sendings: seq<Sending>): (steps: seq<Step>)
    ensures |steps| == |sendings|
  {
    if sendings == [] then [] else [sendings[0].step] + StepsOf(sendings[1..])
  }

  /** Every batch is delivered, and only what this store sends is delivered more than once. */
  predicate AtLeastOnce(sendings: seq<Sending>) {
    forall i :: 0 <= i < |sendings| ==> sendings[i].times > 0 && (IsSent(sendings[i].step) || sendings[i].times == 1)
  }

  lemma {:induction false} ManyAreOne(w: World, step: Step, times: nat)
    requires Inv(w.db, w.older) && Unspent(w.db, w.seed) && MintsNew(w.db, step) && times > 0 && (IsSent(step) || times == 1)
    ensures DeliveredTimes(w, step, times) == Apply(w, step)
  {
    if times == 1 {
      DeliveredOnce(w, step);
    } else {
      ManyAreOne(w, step, times - 1);
      DeliveredAgain(w, step);
    }
  }

  lemma FirstMintIsNew(db: Db, steps: seq<Step>)
    requires FreshMints(db, steps) && steps != []
    ensures MintsNew(db, steps[0])
  {
  }

  /**
   * A history in which each batch is delivered any number of times reaches the very world of the
   * history in which each is delivered once, as one atomic step.
   */
  lemma {:induction false} DuplicatesChangeNothing(w: World, sendings: seq<Sending>)
    requires WorldInv(w) && AllUnspent(w) && AtLeastOnce(sendings) && FreshMints(w.db, StepsOf(sendings))
    ensures AfterSendings(w, sendings) == After(w, StepsOf(sendings))
    decreases |sendings|
  {
    hide Inv, StampsAreSpent, ClaimsBounded, FreshMints, Apply, Unspent, MintsNew, DeliveredTimes;
    if sendings != [] {
      var step, steps := sendings[0].step, StepsOf(sendings);
      assert steps[0] == step && steps[1..] == StepsOf(sendings[1..]);
      FirstMintIsNew(w.db, steps);
      ManyAreOne(w, step, sendings[0].times);
      MintsStayFresh(w, steps);
      StepKeeps(w, step);
      SeedsAreSpentInTurn(w, [step]);
      assert After(w, [step]) == Next(w, step);
      DuplicatesChangeNothing(Next(w, step), sendings[1..]);
    }
  }

  /** From an empty database, with no more said of the history than that its ids are new. */
  lemma ReachedWithDuplicates(now: int, sendings: seq<Sending>)
    requires AtLeastOnce(sendings) && FreshMints(Empty(now).db, StepsOf(sendings))
    ensures AfterSendings(Empty(now), sendings) == After(Empty(now), StepsOf(sendings))
  {
    EmptyIsSound(now);
    DuplicatesChangeNothing(Empty(now), sendings);
  }
}
