/** The first outcome stands: what an await is answered, and that the answer is final. */
module ProtocolOutcomes {
  import opened Options
  import opened Tables
  import opened Protocol
  import opened ProtocolInvariant
  import opened ProtocolStarts
  import opened ProtocolSteps
  import opened ProtocolHistory
  import opened ProtocolSafety
  import opened ProtocolRuns
  import opened ProtocolAwaits

  /** No batch takes an event back or changes what it holds. */
  lemma {:induction false} FirstPayloadStands(w: World, steps: seq<Step>, key: EventKey)
    requires key in w.db.events
    ensures key in After(w, steps).db.events
    ensures After(w, steps).db.events[key].payload == w.db.events[key].payload
    decreases |steps|
  {
    if steps != [] {
      TasksAndEventsGrow(w, steps[0]);
      FirstPayloadStands(Next(w, steps[0]), steps[1..], key);
    }
  }

  // ------------------------------------------------------------------------------------------
  // Who may record a completion.

  ghost predicate RecordsCompletion(db: Db, after: Db, key: EventKey) {
    key in after.events && key !in db.events && key.1.TaskDone?
  }

  ghost predicate TrueNews(after: Db, key: EventKey)
    requires key in after.events && key.1.TaskDone?
  {
    && key.1.taskId in after.tasks && after.tasks[key.1.taskId].queue == key.0
    && !after.tasks[key.1.taskId].state.Live()
    && after.events[key].payload == Encoded(OutcomeOf(after.tasks[key.1.taskId]))
  }

  lemma SucceedRecordsNothing(db: Db, taskId: string, next: Task, how: Closing, id: string, run: Run, key: EventKey)
    ensures !RecordsCompletion(db, Succeed(db, taskId, next, how, id, run), key)
  {
  }

  lemma FailRecords(db: Db, older: set<string>, f: Failure, seed: nat, key: EventKey)
    requires Inv(db, older) && RecordsCompletion(db, Fail(db, f, seed), key)
    ensures TrueNews(Fail(db, f, seed), key)
  {
    var run := db.runs[f.runId];
    var task := db.tasks[run.taskId];
    match AfterFailure(task, run, f)
    case Retries =>
      var next, successor := FailRetriesWrites(db, f, seed);
      SucceedRecordsNothing(db, run.taskId, next, FailClosing(seed), f.nextId, successor, key);
      assert false;
    case RollsBack(enters) =>
      var saga, state, due := FailRollsBackWrites(db, f, enters, seed);
      SucceedRecordsNothing(db, run.taskId, RollingBack(task.(saga := saga), run, state, seed), FailClosing(seed), f.nextId,
                            Successor(run, state, due, By(seed, "rollback-pass")), key);
      assert false;
    case EndsTask =>
      var live, ended, how := FailEndsBy(db, older, f, seed);
      EndTaskWrites(db, run.taskId, live, ended, how, seed);
  }

  lemma CompleteRecords(db: Db, older: set<string>, queue: string, id: string, token: string, result: string, seed: nat,
                        key: EventKey)
    requires Inv(db, older) && RecordsCompletion(db, Complete(db, queue, id, token, result, seed), key)
    ensures TrueNews(Complete(db, queue, id, token, result, seed), key)
  {
    LiveRunIsTop(db, id);
    EndTaskWrites(db, db.runs[id].taskId, id,
      db.tasks[db.runs[id].taskId].(state := Completed, result := Some(result), cancelAt := None, stamp := By(seed, "task")),
      Closing(Completed, true, true, By(seed, "complete")), seed);
  }

  lemma CancelRecords(db: Db, older: set<string>, queue: string, taskId: string, deadlineOnly: bool, unlessSaga: bool,
                      seed: nat, key: EventKey)
    requires Inv(db, older) && RecordsCompletion(db, Cancel(db, queue, taskId, deadlineOnly, unlessSaga, seed), key)
    ensures TrueNews(Cancel(db, queue, taskId, deadlineOnly, unlessSaga, seed), key)
  {
    var live :| LiveRunOf(db, live, taskId);
    LiveRunIsTop(db, live);
    EndTaskWrites(db, taskId, live, CancelledTask(db.tasks[taskId], By(seed, "cancel")),
                  Closing(Cancelled, false, true, By(seed, "runs")), seed);
  }

  lemma AtCapRecords(db: Db, older: set<string>, id: string, passId: string, reason: string, how: Closing, terminal: Stamp,
                     seed: nat, key: EventKey)
    requires Inv(db, older) && id in db.runs && db.runs[id].state == Running && how.state == Failed
    requires RecordsCompletion(db, AtCap(db, id, passId, reason, how, terminal, seed), key)
    ensures TrueNews(AtCap(db, id, passId, reason, how, terminal, seed), key)
  {
    var run := db.runs[id];
    var task := db.tasks[run.taskId];
    LiveRunIsTop(db, id);
    if EntersSaga(task) {
      SucceedRecordsNothing(db, run.taskId, RollingBack(task.(saga := Some(reason)), run, Pending, seed), how, passId,
                            Successor(run, Pending, db.now, By(seed, "rollback-pass")), key);
      assert false;
    } else {
      EndTaskWrites(db, run.taskId, id, task.(state := Failed, reason := Some(reason), stamp := terminal), how, seed);
    }
  }

  lemma SweepsRecord(db: Db, older: set<string>, queue: string, id: string, gen: nat, nextId: string, seed: nat, key: EventKey)
    requires Inv(db, older)
    ensures RecordsCompletion(db, SweepLostLaunch(db, queue, id, gen, nextId, seed), key)
      ==> TrueNews(SweepLostLaunch(db, queue, id, gen, nextId, seed), key)
  {
    if RecordsCompletion(db, SweepLostLaunch(db, queue, id, gen, nextId, seed), key) {
      AtCapRecords(db, older, id, nextId, REASON_RELAUNCH_CAP, Closing(Failed, false, true, By(seed, "cap")),
                   By(seed, "task-fail"), seed, key);
    }
  }

  lemma TimeoutRecords(db: Db, older: set<string>, queue: string, id: string, gen: nat, nextId: string, seed: nat, key: EventKey)
    requires Inv(db, older) && RecordsCompletion(db, SweepClaimTimeout(db, queue, id, gen, nextId, seed), key)
    ensures TrueNews(SweepClaimTimeout(db, queue, id, gen, nextId, seed), key)
  {
    var how := Closing(Failed, false, false, By(seed, "fail"));
    if db.tasks[db.runs[id].taskId].infraRetries < INFRA_RETRY_CAP {
      var next, successor := TimeoutRetriesWrites(db, id, nextId, how, seed);
      SucceedRecordsNothing(db, db.runs[id].taskId, next, how, nextId, successor, key);
      assert false;
    } else {
      AtCapRecords(db, older, id, nextId, REASON_INFRA_CAP, how, By(seed, "task-terminal"), seed, key);
    }
  }

  lemma OtherStepsRecordNothing(w: World, step: Step, key: EventKey)
    requires (!EndsOrSweeps(step) && !step.Records?) || step.OlderBuild?
    ensures !RecordsCompletion(w.db, Apply(w, step), key)
  {
  }

  /** An await records only how the child of the row it read stands ended. */
  lemma RecordStepRecords(w: World, step: Step, key: EventKey)
    requires WorldInv(w) && step.Records? && RecordsCompletion(w.db, Apply(w, step), key)
    ensures TrueNews(Apply(w, step), key)
  {
    assert ReadRight(w.db, step.read.child, step.read.stamp, step.read.outcome);
  }

  lemma EndingsRecord(w: World, step: Step, key: EventKey)
    requires WorldInv(w) && EndsOrSweeps(step) && !step.OlderBuild? && RecordsCompletion(w.db, Apply(w, step), key)
    ensures TrueNews(Apply(w, step), key)
  {
    if step.Completes? {
      CompleteRecords(w.db, w.older, step.queue, step.id, step.token, step.result, w.seed, key);
    } else if step.Fails? {
      FailRecords(w.db, w.older, step.f, w.seed, key);
    } else if step.SweepsLaunch? {
      SweepsRecord(w.db, w.older, step.queue, step.id, step.gen, step.passId, w.seed, key);
    } else if step.SweepsClaim? {
      TimeoutRecords(w.db, w.older, step.queue, step.id, step.gen, step.nextId, w.seed, key);
    } else {
      CancelRecords(w.db, w.older, step.queue, step.taskId, step.deadlineOnly, step.unlessSaga, w.seed, key);
    }
  }

  /** Whatever batch records a completion, the task stands ended then, and the event says how. */
  lemma CompletionIsTrue(now: int, steps: seq<Step>, step: Step, key: EventKey)
    requires RecordsCompletion(After(Empty(now), steps).db, Apply(After(Empty(now), steps), step), key)
    ensures TrueNews(Apply(After(Empty(now), steps), step), key)
  {
    var w := After(Empty(now), steps);
    ReachableIsSound(now, steps);
    if step.Records? {
      RecordStepRecords(w, step, key);
    } else if EndsOrSweeps(step) && !step.OlderBuild? {
      EndingsRecord(w, step, key);
    } else {
      OtherStepsRecordNothing(w, step, key);
    }
  }

  // ------------------------------------------------------------------------------------------
  // What an await is answered.

  /** The run is woken by this event, with what it holds parked on it. */
  predicate CarriesAnswer(run: Run, key: EventKey) {
    run.queue == key.0 && run.wakeEvent == Some(key.1) && run.eventPayload.Some?
  }

  /**
   * Once a completion is recorded, every later hit and every wake carries that payload and no
   * other, through revivals, second endings and racing records.
   */
  lemma EveryAnswerIsTheFirst(now: int, steps: seq<Step>, more: seq<Step>, key: EventKey)
    requires key in After(Empty(now), steps).db.events
    ensures var first := After(Empty(now), steps).db.events[key].payload;
      var later := After(Empty(now), steps + more).db;
      && (forall a: Await :: a.queue == key.0 && Hit(later, a, key.1).Some? ==> Hit(later, a, key.1).value == first)
      && (forall id :: id in later.runs && CarriesAnswer(later.runs[id], key) ==>
            later.runs[id].eventPayload.value == first)
  {
    AfterBoth(Empty(now), steps, more);
    FirstPayloadStands(After(Empty(now), steps), more, key);
    ReachableIsSound(now, steps + more);
  }

  /** The await of this run came due unanswered: nothing is parked on the run, and it waits for nothing. */
  ghost predicate Unanswered(db: Db, id: string) {
    id in db.runs && db.runs[id].eventPayload.None? && !HasWait(db, id)
  }

  predicate AwaitsAgain(step: Step, id: string) {
    step.Awaits? && step.a.runId == id
  }

  lemma StaysUnanswered(w: World, step: Step, id: string)
    requires Unanswered(w.db, id) && !AwaitsAgain(step, id)
    ensures Unanswered(Apply(w, step), id)
  {
    if step.Claims? {
      ClaimGrows(w.db, step.queue, step.token, step.leaseMs, step.limit, step.picked, w.seed);
    } else {
      if step.Awaits? {
        AwaitGrows(w.db, step.a, step.event, step.timeoutMs, w.seed);
      } else {
        StepGrows(w, step);
      }
      assert RunGrows(w.db, id, w.db.runs[id], Apply(w, step).runs[id]);
    }
  }

  /** The claim that finds a registered wait due takes the wait, and leaves the run unanswered. */
  lemma ClaimTimesOut(now: int, steps: seq<Step>, queue: string, token: string, leaseMs: nat, limit: nat,
                      picked: set<string>, key: WaitKey)
    requires var w := After(Empty(now), steps);
      key in w.db.waits && key.0 in picked && ClaimAdmits(w.db, queue, token, leaseMs, limit, picked)
    ensures var w := After(Empty(now), steps);
      var after := Claim(w.db, queue, token, leaseMs, limit, picked, w.seed);
      Unanswered(after, key.0) && after.runs[key.0].state == Running
      && after.runs[key.0].wakeEvent == Some(w.db.waits[key].event) && after.runs[key.0].wakeStep == Some(key.1)
  {
    ReachableIsSound(now, steps);
    var w := After(Empty(now), steps);
    assert Sleeper(w.db.runs[key.0], key.1, w.db.waits[key]);
    assert Claimable(w.db, queue, key.0);
    ClaimAnswersWaits(w.db, queue, token, leaseMs, limit, picked, w.seed);
    RunningRunHasNoWait(Claim(w.db, queue, token, leaseMs, limit, picked, w.seed), key.0);
  }
}
