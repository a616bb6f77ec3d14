/** The row of a task that ended is changed by one batch alone, its revival. */
module ProtocolEnded {
  import opened Protocol
  import opened ProtocolHistory

  ghost predicate Ended(w: World, id: string) {
    id in w.db.tasks && !w.db.tasks[id].state.Live()
  }

  /** The step revives the task. */
  predicate RevivesIt(w: World, step: Step, id: string) {
    step.Revives? && step.taskId == id && RetryAdmits(w.db, step.queue, id, step.top, step.runId)
  }

  ghost predicate RowStays(w: World, step: Step, id: string)
    requires id in w.db.tasks
  {
    id in Apply(w, step).tasks && Apply(w, step).tasks[id] == w.db.tasks[id]
  }

  lemma CompletionSpares(w: World, step: Step, id: string)
    requires Ended(w, id) && step.Completes?
    ensures RowStays(w, step, id)
  {
  }

  lemma CancellationSpares(w: World, step: Step, id: string)
    requires Ended(w, id) && step.Cancels?
    ensures RowStays(w, step, id)
  {
  }

  lemma FailureSpares(w: World, step: Step, id: string)
    requires Ended(w, id) && step.Fails?
    ensures RowStays(w, step, id)
  {
  }

  lemma LostLaunchSpares(w: World, step: Step, id: string)
    requires Ended(w, id) && step.SweepsLaunch?
    ensures RowStays(w, step, id)
  {
  }

  lemma ClaimTimeoutSpares(w: World, step: Step, id: string)
    requires Ended(w, id) && step.SweepsClaim?
    ensures RowStays(w, step, id)
  {
  }

  lemma EventSpares(w: World, step: Step, id: string)
    requires Ended(w, id) && (step.Emits? || step.Awaits? || step.Records? || step.Reads? || step.Tick?)
    ensures RowStays(w, step, id)
  {
  }

  lemma LeaseSpares(w: World, step: Step, id: string)
    requires Ended(w, id) && (step.Activates? || step.Heartbeats? || step.Expires? || step.Checkpoints? || step.Suspends? || step.Defers?)
    ensures RowStays(w, step, id)
  {
  }

  lemma ClaimSpares(w: World, step: Step, id: string)
    requires Ended(w, id) && step.Claims?
    ensures RowStays(w, step, id)
  {
    forall run | run in step.picked && run in w.db.runs && w.db.runs[run].taskId == id
      ensures !ClaimAdmits(w.db, step.queue, step.token, step.leaseMs, step.limit, step.picked)
    {
      assert !Claimable(w.db, step.queue, run);
    }
  }

  lemma SpawnSpares(w: World, step: Step, id: string)
    requires Ended(w, id) && (step.Spawns? || step.OlderBuild?)
    ensures RowStays(w, step, id)
  {
  }

  lemma RevivalSpares(w: World, step: Step, id: string)
    requires Ended(w, id) && step.Revives? && !RevivesIt(w, step, id)
    ensures RowStays(w, step, id)
  {
  }

  lemma EndedRowStays(w: World, step: Step, id: string)
    requires Ended(w, id) && !RevivesIt(w, step, id)
    ensures RowStays(w, step, id)
  {
    if step.Completes? {
      CompletionSpares(w, step, id);
    } else if step.Cancels? {
      CancellationSpares(w, step, id);
    } else if step.Fails? {
      FailureSpares(w, step, id);
    } else if step.SweepsLaunch? {
      LostLaunchSpares(w, step, id);
    } else if step.SweepsClaim? {
      ClaimTimeoutSpares(w, step, id);
    } else if step.Emits? || step.Awaits? || step.Records? || step.Reads? || step.Tick? {
      EventSpares(w, step, id);
    } else if step.Claims? {
      ClaimSpares(w, step, id);
    } else if step.Spawns? || step.OlderBuild? {
      SpawnSpares(w, step, id);
    } else if step.Revives? {
      RevivalSpares(w, step, id);
    } else {
      LeaseSpares(w, step, id);
    }
  }
}
