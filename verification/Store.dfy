/**
 * The store's tables, and its batches run over them one statement after another. A batch is
 * delivered at least once: a duplicate runs every statement again.
 */
module Store {
  import opened Options
  import opened Tables
  import opened Protocol
  import opened ProtocolInvariant
  import opened ProtocolHistory
  import opened Statements
  import opened Batches
  import opened ProtocolFollows
  import opened FailBatch
  import opened SagaPass
  import opened Sweeps
  import opened OtherBatches
  import opened LeaseBatches
  import opened Deliveries

  class Engine {
    var now: int
    var tasks: map<string, Task>
    var runs: map<string, Run>
    var waits: map<WaitKey, Wait>
    var events: map<EventKey, Event>

    function Rows(): Db
      reads this
    {
      Db(now, tasks, runs, waits, events)
    }

    /** Four statements that tell a stored event's waiters at once, if this batch stored it. */
    method TellWaiters(queue: string, name: EventName, fence: Stamp, seed: nat)
      modifies `runs, `tasks, `waits
      ensures Rows() == Told(old(Rows()), queue, name, fence, seed)
      ensures old(NoneHalfWoken(Rows(), seed)) ==>
        Rows() == if Fired(old(Rows()), queue, name, fence) then Wake(old(Rows()), queue, name, seed) else old(Rows())
    {
      ghost var before := Rows();
      runs := RunsWoken(Rows(), queue, name, fence, seed);
      tasks := TasksWoken(Rows(), queue, name, seed);
      waits := WokenWaitsGone(Rows(), queue, name, seed);
      runs := RunsSealed(Rows(), queue, name, seed);
      if NoneHalfWoken(before, seed) {
        TellingIsWaking(before, queue, name, fence, seed);
      }
    }

    method RecordEnding(queue: string, taskId: string, fence: Stamp, outcome: Outcome, seed: nat)
      modifies `runs, `tasks, `waits, `events
      ensures Rows() == Tail(old(Rows()), queue, taskId, fence, outcome, seed)
    {
      events := EndingRecorded(Rows(), queue, taskId, fence, outcome, seed);
      TellWaiters(queue, TaskDone(taskId), By(seed, "task-done"), seed);
    }

    method CompleteRun(queue: string, id: string, token: string, result: string, taskId: string, seed: nat)
      modifies `runs, `tasks, `waits, `events
      ensures Rows() == CompleteBatch(old(Rows()), queue, id, token, result, taskId, seed)
    {
      runs := RunCompleted(Rows(), queue, id, token, seed);
      tasks := TaskCompleted(Rows(), queue, id, result, seed);
      waits := WaitsGone(Rows(), id, By(seed, "complete"));
      RecordEnding(queue, taskId, By(seed, "task"), Outcome(Completed, Some(result), None), seed);
    }

    /** The pass a terminal failure is owed, under the fence of the batch that decided it. */
    method PlacePass(f: Failure, fence: Stamp, seed: nat)
      modifies `runs, `tasks
      ensures Rows() == SagaArm(old(Rows()), f, fence, seed)
    {
      runs := PassInserted(Rows(), f, fence, seed);
      tasks := PhaseMarked(Rows(), f, seed);
      tasks := TaskRollingBack(Rows(), f, seed);
    }

    method FailRun(f: Failure, taskId: string, seed: nat)
      modifies `runs, `tasks, `waits, `events
      ensures Rows() == FailStatements(old(Rows()), f, taskId, seed)
    {
      runs := RunFailed(Rows(), f, seed);
      PlacePass(f, By(seed, "fail"), seed);
      runs := SuccessorInserted(Rows(), f, seed);
      tasks := TaskRetrying(Rows(), f, seed);
      tasks := TaskFailed(Rows(), f, seed);
      waits := WaitsGone(Rows(), f.runId, By(seed, "fail"));
      RecordEnding(f.queue, taskId, TerminalStamp(f, seed), Outcome(Failed, None, Some(f.reason)), seed);
    }

    method SweepTimeout(sw: Sweeping, taskId: string, seed: nat)
      modifies `runs, `tasks, `waits, `events
      ensures Rows() == TimeoutStatements(old(Rows()), sw, taskId, seed)
    {
      runs := RunTimedOut(Rows(), sw, seed);
      runs := RetryPlaced(Rows(), sw, seed);
      PlacePass(AtCapOf(sw, REASON_INFRA_CAP), By(seed, "fail"), seed);
      tasks := TaskTimedOut(Rows(), sw, seed);
      tasks := RetryBooked(Rows(), sw, seed);
      waits := WaitsGone(Rows(), sw.runId, By(seed, "fail"));
      RecordEnding(sw.queue, taskId, By(seed, "task-terminal"), Outcome(Failed, None, Some(REASON_INFRA_CAP)), seed);
    }

    method SweepLaunch(sw: Sweeping, taskId: string, seed: nat)
      modifies `runs, `tasks, `waits, `events
      ensures Rows() == LaunchStatements(old(Rows()), sw, taskId, seed)
    {
      runs := RunReopened(Rows(), sw, seed);
      runs := RunCapped(Rows(), sw, seed);
      PlacePass(AtCapOf(sw, REASON_RELAUNCH_CAP), By(seed, "cap"), seed);
      tasks := TaskReopened(Rows(), sw, seed);
      tasks := TaskCapped(Rows(), sw, REASON_RELAUNCH_CAP, By(seed, "cap"), By(seed, "task-fail"));
      waits := WaitsGone(Rows(), sw.runId, By(seed, "cap"));
      RecordEnding(sw.queue, taskId, By(seed, "task-fail"), Outcome(Failed, None, Some(REASON_RELAUNCH_CAP)), seed);
    }

    method CancelTask(c: Cancelling, seed: nat)
      modifies `runs, `tasks, `waits, `events
      ensures Rows() == CancelStatements(old(Rows()), c, seed)
    {
      tasks := TaskCancelled(Rows(), c, seed);
      runs := RunsCancelled(Rows(), c, seed);
      waits := WaitsCancelled(Rows(), c, seed);
      RecordEnding(c.queue, c.taskId, By(seed, "cancel"), Outcome(Cancelled, None, Some(REASON_CANCELLED)), seed);
    }

    method ClaimRuns(c: Claiming, seed: nat)
      modifies `runs, `tasks, `waits
      ensures Rows() == ClaimStatements(old(Rows()), c, seed)
    {
      runs := RunsClaimed(Rows(), c, seed);
      tasks := TasksBooked(Rows(), c, seed);
      waits := WaitsTimedOut(Rows(), c, seed);
    }

    method ParkRun(p: Parking, seed: nat)
      modifies `runs, `tasks, `waits
      ensures Rows() == ParkStatements(old(Rows()), p, seed)
    {
      runs := RunSuspended(Rows(), p, seed);
      tasks := TaskMirrors(Rows(), p, seed);
      waits := WaitsGone(Rows(), p.id, By(seed, "suspend"));
    }

    /** The batches that end a task. */
    method SendEnding(w: World, step: Step)
      requires w.db == Rows() && NamesARun(w.db, step) && (IsEnding(step) || IsSweep(step))
      modifies `runs, `tasks, `waits, `events
      ensures Rows() == Delivered(w, step)
    {
      hide Tail, CompleteBatch, FailStatements, LaunchStatements, TimeoutStatements, CancelStatements;
      match step
      case Completes(queue, id, token, result) => CompleteRun(queue, id, token, result, TaskOf(w.db, id), w.seed);
      case Fails(f) => FailRun(f, TaskOf(w.db, f.runId), w.seed);
      case SweepsLaunch(_, id, _, _) => SweepLaunch(SweepOf(step), TaskOf(w.db, id), w.seed);
      case SweepsClaim(_, id, _, _) => SweepTimeout(SweepOf(step), TaskOf(w.db, id), w.seed);
      case Cancels(queue, taskId, deadlineOnly, unlessSaga) =>
        CancelTask(Cancelling(queue, taskId, deadlineOnly, unlessSaga), w.seed);
    }

    /** The batches of a claim's holder. */
    method SendClaimed(w: World, step: Step)
      requires w.db == Rows() && IsOfAClaim(step)
      modifies `runs, `tasks, `waits
      ensures Rows() == Delivered(w, step)
    {
      match step
      case Activates(queue, id, token, gen) =>
        runs := RunActivated(Rows(), Activating(queue, id, token, gen), w.seed);
        tasks := TaskStarted(Rows(), Activating(queue, id, token, gen), w.seed);
      case Checkpoints(queue, id, token, extendMs, owed) =>
        runs := RunLeased(Rows(), Saving(queue, id, token, extendMs, owed), w.seed);
        tasks := CheckpointWritten(Rows(), Saving(queue, id, token, extendMs, owed), w.seed);
      case Suspends(_, _, _, _, _) => ParkRun(ParkingOf(step), w.seed);
      case Defers(_, _, _, _, _) => ParkRun(ParkingOf(step), w.seed);
    }

    method AwaitNamedEvent(a: Awaiting, seed: nat)
      modifies `runs, `tasks, `waits
      ensures Rows() == AwaitStatements(old(Rows()), a, seed)
    {
      waits := WaitRegistered(Rows(), a, seed);
      runs := RunParked(Rows(), a, seed);
      tasks := TaskSleeps(Rows(), a, seed);
    }

    method Emit(e: Emitting, seed: nat)
      modifies `runs, `tasks, `waits, `events
      ensures Rows() == EmitStatements(old(Rows()), e, seed)
    {
      events := EventEmitted(Rows(), e, seed);
      TellWaiters(e.queue, FromPort(e.name), By(seed, "event"), seed);
    }

    /** The batches that start something. */
    method SendOpening(w: World, step: Step)
      requires w.db == Rows() && IsOpening(step)
      modifies `runs, `tasks, `waits, `events
      ensures Rows() == Delivered(w, step)
    {
      hide Told, TasksBooked, RunsClaimed, WaitsTimedOut, RetryAdmits, SpawnAdmits, AwaitStatements, EmitStatements,
           TaskInserted, FirstRunInserted, TaskRevived, RunRevived;
      match step
      case Spawns(sp) =>
        tasks := TaskInserted(Rows(), sp, w.seed);
        runs := FirstRunInserted(Rows(), sp, w.seed);
      case Claims(queue, token, leaseMs, limit, picked) =>
        ClaimRuns(Claiming(queue, token, leaseMs, limit, picked), w.seed);
      case Revives(queue, taskId, top, runId) =>
        tasks := TaskRevived(Rows(), Reviving(queue, taskId, top, runId), w.seed);
        runs := RunRevived(Rows(), Reviving(queue, taskId, top, runId), w.seed);
      case Emits(queue, name, text) => Emit(Emitting(queue, name, text), w.seed);
      case Awaits(a, event, timeoutMs) => AwaitNamedEvent(Awaiting(a, event, timeoutMs), w.seed);
    }

    /** The batches of one statement. A read writes nothing. */
    method SendBare(w: World, step: Step)
      requires w.db == Rows() && IsBare(step) && IsSent(step)
      modifies `runs, `events
      ensures Rows() == Delivered(w, step)
    {
      if step.Heartbeats? {
        runs := Heartbeat(Rows(), step.queue, step.id, step.token, step.extendMs, w.seed).runs;
      } else if step.Expires? {
        runs := ExpireLeaseNow(Rows(), step.queue, step.id, step.token).runs;
      } else if step.Records? && step.read in w.seen && !step.read.outcome.state.Live() {
        events := RecordTaskDone(Rows(), step.a, step.read.child, step.read.stamp, step.read.outcome, w.seed).events;
      }
    }

    /** One delivery of a batch, a crash before it or after it being none of its statements or all. */
    method Send(w: World, step: Step)
      requires w.db == Rows() && IsSent(step)
      modifies this
      ensures Rows() == Delivered(w, step)
    {
      hide Delivered, NamesARun;
      if !NamesARun(w.db, step) {
        UnnamedDelivers(w, step);
      } else if IsEnding(step) || IsSweep(step) {
        SendEnding(w, step);
      } else if IsOfAClaim(step) {
        SendClaimed(w, step);
      } else if IsOpening(step) {
        SendOpening(w, step);
      } else {
        SendBare(w, step);
      }
    }

    /**
     * However often a batch is delivered before the next one, its rows are the ones one atomic
     * step leaves. Every reachable world is one its seed is new to.
     */
    method Deliver(w: World, step: Step, times: nat)
      requires w.db == Rows() && Inv(w.db, w.older) && Unspent(w.db, w.seed) && MintsNew(w.db, step)
      requires IsSent(step) && times > 0
      modifies this
      ensures Rows() == Apply(w, step)
    {
      DeliveredOnce(w, step);
      DeliveredAgain(w, step);
      for delivery := 0 to times
        invariant Rows() == if delivery == 0 then w.db else Apply(w, step)
      {
        Send(w.(db := Rows()), step);
      }
    }
  }
}
