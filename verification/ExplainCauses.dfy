/**
 * When each cause is the answer, and what verdict it has. Every condition here is said of the
 * facts and the evidence alone, in strings, instants and counters, and of no condition of the
 * table, of no order and of no helper of either.
 */
module ExplainCauses {
  import opened Options
  import opened Explain

  // ------------------------------------------------------------------------------------------
  // What the facts are.

  ghost predicate IsLive(state: string) {
    state == "pending" || state == "running" || state == "sleeping"
  }

  ghost predicate HasEnded(state: string) {
    state == "completed" || state == "failed" || state == "cancelled"
  }

  /** The instant is at or before the facts' clock. */
  ghost predicate Gone(facts: TaskFacts, at: Option<int>) {
    at.Some? && facts.now.Some? && at.value <= facts.now.value
  }

  /** The instant is after it. */
  ghost predicate Coming(facts: TaskFacts, at: Option<int>) {
    at.Some? && facts.now.Some? && facts.now.value < at.value
  }

  ghost predicate Legible(facts: TaskFacts) {
    && facts.outcome != Refused && facts.corrupt == 0 && (IsLive(facts.task.state) || HasEnded(facts.task.state))
    && (forall i :: 0 <= i < |facts.runs| ==> IsLive(facts.runs[i].state) || HasEnded(facts.runs[i].state))
    && (forall i :: 0 <= i < |facts.waits| ==> facts.waits[i].status == "waiting" || facts.waits[i].status == "delivered")
  }

  ghost predicate NoLiveRun(facts: TaskFacts) {
    forall i :: 0 <= i < |facts.runs| ==> !IsLive(facts.runs[i].state)
  }

  ghost predicate OnlyLiveAt(runs: seq<RunFacts>, i: int) {
    0 <= i < |runs| && forall j :: 0 <= j < |runs| ==> (IsLive(runs[j].state) <==> j == i)
  }

  ghost predicate OneLiveRun(facts: TaskFacts, run: RunFacts) {
    exists i :: OnlyLiveAt(facts.runs, i) && facts.runs[i] == run
  }

  /** A legible live task, with one live run that is in the task's own state. */
  ghost predicate Sound(facts: TaskFacts, run: RunFacts) {
    Legible(facts) && IsLive(facts.task.state) && OneLiveRun(facts, run) && run.state == facts.task.state
  }

  /** And with no deadline behind it. */
  ghost predicate Undisturbed(facts: TaskFacts, run: RunFacts) {
    Sound(facts, run) && !Gone(facts, facts.task.cancelAt)
  }

  /** The engine's guards were read beside these rows, and refuse the move. */
  ghost predicate SweepWillNotCancel(evidence: Evidence) {
    exists takes, reclaims :: evidence.admission == Some(Admission.Admission(takes, reclaims, false))
  }

  ghost predicate SweepWillNotReclaim(evidence: Evidence) {
    exists takes, cancels :: evidence.admission == Some(Admission.Admission(takes, false, cancels))
  }

  ghost predicate ClaimWillNotTake(evidence: Evidence) {
    exists reclaims, cancels :: evidence.admission == Some(Admission.Admission(false, reclaims, cancels))
  }

  /** A worker started the run under its newest claim. */
  ghost predicate Started(run: RunFacts) {
    exists gen :: gen > 0 && run.claimGen == Some(gen) && run.activatedGen == Some(gen)
  }

  /** A running run that was claimed once and has run for more than an hour. */
  ghost predicate Hung(facts: TaskFacts, run: RunFacts) {
    && run.claimGen == Some(1) && run.activatedGen == Some(1)
    && run.startedAt.Some? && facts.now.Some? && facts.now.value - run.startedAt.value > 3_600_000
  }

  /** A sleeping run that, if it is due, no guard was found to refuse. */
  ghost predicate Asleep(facts: TaskFacts, evidence: Evidence, run: RunFacts) {
    && Undisturbed(facts, run) && run.state == "sleeping"
    && (Gone(facts, run.availableAt) ==> evidence.admission.Some? && !ClaimWillNotTake(evidence))
  }

  /** The wait is of this run for the event and the step it names, still waiting, and due when the run is. */
  ghost predicate IsItsWait(run: RunFacts, wait: WaitFacts) {
    && wait.runId == run.runId && run.wakeEvent == Some(wait.eventName)
    && (run.wakeStep == None || run.wakeStep == Some(wait.stepName))
    && wait.status == "waiting" && wait.timeoutAt == run.availableAt
  }

  ghost predicate OnlyItsWaitAt(waits: seq<WaitFacts>, run: RunFacts, i: int) {
    0 <= i < |waits| && forall j :: 0 <= j < |waits| ==> (IsItsWait(run, waits[j]) <==> j == i)
  }

  /** The run is parked on this wait, the one such wait there is. */
  ghost predicate Parked(facts: TaskFacts, run: RunFacts, wait: WaitFacts) {
    Started(run) && exists i :: OnlyItsWaitAt(facts.waits, run, i) && facts.waits[i] == wait
  }

  ghost predicate FirstNamedAt(events: seq<EventFacts>, name: string, i: int) {
    0 <= i < |events| && events[i].eventName == name && forall j :: 0 <= j < i ==> events[j].eventName != name
  }

  /** The first event of this name exists. */
  ghost predicate Emitted(facts: TaskFacts, name: string) {
    exists i :: FirstNamedAt(facts.events, name, i) && facts.events[i].emitted
  }

  /** A run parked on a wait whose event was not emitted. */
  ghost predicate Awaits(facts: TaskFacts, evidence: Evidence, run: RunFacts, wait: WaitFacts) {
    Asleep(facts, evidence, run) && Parked(facts, run, wait) && !Emitted(facts, wait.eventName)
  }

  /** A started run that sleeps until an instant, and for no event. */
  ghost predicate OnATimer(facts: TaskFacts, evidence: Evidence, run: RunFacts) {
    Asleep(facts, evidence, run) && run.wakeEvent == None && run.availableAt.Some? && Started(run)
  }

  ghost predicate OfAChild(name: string) {
    |name| >= 11 && name[..11] == "$task-done:"
  }

  /** The event is no child's, and its await has a timeout ahead or none. */
  ghost predicate OfAnEvent(facts: TaskFacts, wait: WaitFacts) {
    !OfAChild(wait.eventName) && (wait.timeoutAt == None || Coming(facts, wait.timeoutAt))
  }

  /** The list of the event's waiters was read, and all of it. */
  ghost predicate WaitersRead(evidence: Evidence) {
    evidence.waiters == Some(Waiters(0))
  }

  // ------------------------------------------------------------------------------------------
  // When each cause is the answer.

  /** When this cause is the answer. */
  ghost predicate Tells(facts: TaskFacts, evidence: Evidence, cause: Cause) {
    match cause
    case UnreadableFacts =>
      || !Legible(facts)
      || (exists run :: OnATimer(facts, evidence, run) && evidence.checkpoints == Some(UnreadableCheckpoints))
      || (exists run, wait :: Awaits(facts, evidence, run, wait) && !Gone(facts, run.availableAt)
            && (if OfAChild(wait.eventName) then evidence.child.Some? else OfAnEvent(facts, wait))
            && evidence.waiters.Some? && evidence.waiters.value.corrupt > 0)
    case TerminalTaskWithALiveRun => Legible(facts) && HasEnded(facts.task.state) && !NoLiveRun(facts)
    case CompletedTask => Legible(facts) && NoLiveRun(facts) && facts.task.state == "completed"
    case CancelledTask => Legible(facts) && NoLiveRun(facts) && facts.task.state == "cancelled"
    case FailedByAnEngineReason =>
      && Legible(facts) && NoLiveRun(facts) && facts.task.state == "failed"
      && exists reason :: facts.outcome == Result(Some(reason))
    case FailedAttemptsExhausted =>
      && Legible(facts) && NoLiveRun(facts) && facts.task.state == "failed" && facts.outcome == Result(None)
      && facts.task.attempts.Some? && facts.task.maxAttempts.Some?
      && facts.task.attempts.value >= facts.task.maxAttempts.value
    case FailedWithNoRetry =>
      && Legible(facts) && NoLiveRun(facts) && facts.task.state == "failed" && facts.outcome == Result(None)
      && facts.task.attempts.Some? && facts.task.maxAttempts.Some?
      && facts.task.attempts.value < facts.task.maxAttempts.value
    case LiveTaskWithoutOneLiveRun =>
      Legible(facts) && IsLive(facts.task.state) && forall run :: !OneLiveRun(facts, run)
    case TaskAndRunStatesDiffer =>
      Legible(facts) && IsLive(facts.task.state) && exists run :: OneLiveRun(facts, run) && run.state != facts.task.state
    case DeadlineNoSweepCancels =>
      SweepWillNotCancel(evidence) && exists run :: Sound(facts, run) && Gone(facts, facts.task.cancelAt)
    case CancellationDeadlinePassed =>
      && evidence.admission.Some? && !SweepWillNotCancel(evidence)
      && exists run :: Sound(facts, run) && Gone(facts, facts.task.cancelAt)
    case LapsedLeaseNoSweepReclaims =>
      && SweepWillNotReclaim(evidence)
      && exists run :: Undisturbed(facts, run) && run.state == "running" && Gone(facts, run.claimExpiresAt)
    case LeaseLapsedUnswept =>
      && evidence.admission.Some? && !SweepWillNotReclaim(evidence)
      && exists run :: Undisturbed(facts, run) && run.state == "running" && Gone(facts, run.claimExpiresAt)
    case RunningPastTheHungBound =>
      exists run :: Undisturbed(facts, run) && run.state == "running" && Coming(facts, run.claimExpiresAt) && Hung(facts, run)
    case RunningUnderALiveLease =>
      exists run :: Undisturbed(facts, run) && run.state == "running" && Coming(facts, run.claimExpiresAt) && !Hung(facts, run)
    case PendingDelayed => exists run :: Undisturbed(facts, run) && run.state == "pending" && Coming(facts, run.availableAt)
    case DueRunNoClaimAdmits =>
      && ClaimWillNotTake(evidence)
      && exists run :: Undisturbed(facts, run) && (run.state == "pending" || run.state == "sleeping")
                       && Gone(facts, run.availableAt)
    case WokenUnclaimed =>
      && evidence.admission.Some? && !ClaimWillNotTake(evidence)
      && exists run :: Undisturbed(facts, run) && run.state == "pending" && Gone(facts, run.availableAt) && run.wakeEvent != None
    case PendingDueUnclaimed =>
      && evidence.admission.Some? && !ClaimWillNotTake(evidence)
      && exists run :: Undisturbed(facts, run) && run.state == "pending" && Gone(facts, run.availableAt) && run.wakeEvent == None
    case BackingOff =>
      exists run :: Asleep(facts, evidence, run) && run.claimGen == Some(0) && Coming(facts, run.availableAt)
    case NeverStarted =>
      exists run :: Asleep(facts, evidence, run) && NeverActivated(facts, run)
    case WaitOutlivesItsEvent =>
      exists run, wait :: Asleep(facts, evidence, run) && Parked(facts, run, wait) && Emitted(facts, wait.eventName)
    case NeverStartedAlpha1Form =>
      evidence.checkpoints == Some(Counted(0)) && exists run :: OnATimer(facts, evidence, run)
    case SleepingPastItsWake =>
      exists run :: Asleep(facts, evidence, run) && Gone(facts, run.availableAt) && KnownSleep(facts, evidence, run)
    case AwaitingAChild =>
      && WaitersRead(evidence) && evidence.child.Some?
      && exists run, wait :: Awaits(facts, evidence, run, wait) && !Gone(facts, run.availableAt) && OfAChild(wait.eventName)
    case AwaitingATimedEvent =>
      && WaitersRead(evidence)
      && exists run, wait :: Awaits(facts, evidence, run, wait) && !OfAChild(wait.eventName) && Coming(facts, wait.timeoutAt)
    case AwaitingAnUntimedEvent =>
      && WaitersRead(evidence)
      && exists run, wait :: Awaits(facts, evidence, run, wait) && !OfAChild(wait.eventName) && wait.timeoutAt == None
    case SleepingOnATimer =>
      && SomeCheckpoint(evidence)
      && exists run :: OnATimer(facts, evidence, run) && Coming(facts, run.availableAt)
    case NoCause => TellsNothing(facts, evidence)
  }

  /** What was claimed and never started, and waits for nothing. */
  ghost predicate NeverActivated(facts: TaskFacts, run: RunFacts) {
    && run.availableAt.Some? && run.claimGen.Some? && run.activatedGen.Some? && run.activatedGen.value < run.claimGen.value
    && forall i :: 0 <= i < |facts.waits| ==> !(facts.waits[i].runId == run.runId && facts.waits[i].status == "waiting")
  }

  /** Asleep in a form the engine writes: on an await, on a timer after some checkpoint, or since it was inserted. */
  ghost predicate KnownSleep(facts: TaskFacts, evidence: Evidence, run: RunFacts) {
    || run.claimGen == Some(0)
    || (exists wait :: Parked(facts, run, wait) && !Emitted(facts, wait.eventName))
    || (OnATimer(facts, evidence, run) && SomeCheckpoint(evidence))
  }

  ghost predicate SomeCheckpoint(evidence: Evidence) {
    exists count :: evidence.checkpoints == Some(Counted(count)) && count > 0
  }

  /** The facts no cause takes. */
  ghost predicate TellsNothing(facts: TaskFacts, evidence: Evidence) {
    || (&& Legible(facts) && NoLiveRun(facts) && facts.task.state == "failed" && facts.outcome == Result(None)
        && !(facts.task.attempts.Some? && facts.task.maxAttempts.Some?))
    || (exists run :: Undisturbed(facts, run) && run.state == "running" && NoSide(facts, run.claimExpiresAt))
    || (exists run :: Undisturbed(facts, run) && run.state == "pending" && NoSide(facts, run.availableAt))
    || (exists run :: Asleep(facts, evidence, run) && UnknownSleep(facts, evidence, run))
  }

  /** There is no instant, or no clock to hold it against. */
  ghost predicate NoSide(facts: TaskFacts, at: Option<int>) {
    at == None || facts.now == None
  }

  /** Asleep in no form the engine writes, or with no clock to say whether it is due. */
  ghost predicate UnknownSleep(facts: TaskFacts, evidence: Evidence, run: RunFacts) {
    && !NeverActivated(facts, run)
    && (run.claimGen == Some(0) ==> NoSide(facts, run.availableAt))
    && (forall wait :: Parked(facts, run, wait) ==>
          !Emitted(facts, wait.eventName) && !OfAChild(wait.eventName) && wait.timeoutAt.Some? && facts.now == None)
    && (OnATimer(facts, evidence, run) ==> SomeCheckpoint(evidence) && facts.now == None)
  }

  /** When this evidence is asked for. */
  ghost predicate AsksFor(facts: TaskFacts, evidence: Evidence, needed: Needed) {
    match needed
    case Admissions =>
      evidence.admission == None && exists run :: Sound(facts, run) && OwesAMove(facts, run)
    case Checkpoints =>
      evidence.checkpoints == None && exists run :: OnATimer(facts, evidence, run)
    case ChildOf(taskId) =>
      && evidence.child == None
      && exists run, wait :: Awaits(facts, evidence, run, wait) && !Gone(facts, run.availableAt)
                             && wait.eventName == "$task-done:" + taskId
    case WaitersOf(name) =>
      && evidence.waiters == None
      && exists run, wait :: Awaits(facts, evidence, run, wait) && !Gone(facts, run.availableAt) && wait.eventName == name
                             && (if OfAChild(name) then evidence.child.Some? else OfAnEvent(facts, wait))
  }

  /** An instant of the task or of its run is behind the clock. */
  ghost predicate OwesAMove(facts: TaskFacts, run: RunFacts) {
    || Gone(facts, facts.task.cancelAt)
    || (run.state == "running" && Gone(facts, run.claimExpiresAt))
    || ((run.state == "pending" || run.state == "sleeping") && Gone(facts, run.availableAt))
  }

  // ------------------------------------------------------------------------------------------
  // What the table reads is what the facts say.

  lemma {:induction false} LiveRunsOfOne(runs: seq<RunFacts>)
    ensures |LiveRuns(runs)| == 0 <==> forall i :: 0 <= i < |runs| ==> !IsLive(runs[i].state)
    ensures |LiveRuns(runs)| == 1 ==> exists i :: OnlyLiveAt(runs, i) && runs[i] == LiveRuns(runs)[0]
    ensures forall i :: OnlyLiveAt(runs, i) ==> LiveRuns(runs) == [runs[i]]
  {
    if runs != [] {
      var rest := runs[1..];
      LiveRunsOfOne(rest);
      assert forall i :: 0 < i < |runs| ==> runs[i] == rest[i - 1];
      if LiveState(runs[0].state) {
        if |LiveRuns(runs)| == 1 { assert OnlyLiveAt(runs, 0); }
      } else if |LiveRuns(runs)| == 1 {
        var i :| OnlyLiveAt(rest, i) && rest[i] == LiveRuns(rest)[0];
        assert OnlyLiveAt(runs, i + 1);
      }
      forall i | OnlyLiveAt(runs, i) ensures LiveRuns(runs) == [runs[i]] {
        if i > 0 { assert OnlyLiveAt(rest, i - 1); } else { assert LiveRuns(rest) == []; }
      }
    }
  }

  lemma {:induction false} MatchingOfOne(waits: seq<WaitFacts>, run: RunFacts)
    ensures |Matching(waits, run)| == 0 <==> forall i :: 0 <= i < |waits| ==> !IsItsWait(run, waits[i])
    ensures |Matching(waits, run)| == 1 ==> exists i :: OnlyItsWaitAt(waits, run, i) && waits[i] == Matching(waits, run)[0]
    ensures forall i :: OnlyItsWaitAt(waits, run, i) ==> Matching(waits, run) == [waits[i]]
  {
    if waits != [] {
      var rest := waits[1..];
      MatchingOfOne(rest, run);
      assert forall i :: 0 < i < |waits| ==> waits[i] == rest[i - 1];
      if IsItsWait(run, waits[0]) {
        if |Matching(waits, run)| == 1 { assert OnlyItsWaitAt(waits, run, 0); }
      } else if |Matching(waits, run)| == 1 {
        var i :| OnlyItsWaitAt(rest, run, i) && rest[i] == Matching(rest, run)[0];
        assert OnlyItsWaitAt(waits, run, i + 1);
      }
      forall i | OnlyItsWaitAt(waits, run, i) ensures Matching(waits, run) == [waits[i]] {
        if i > 0 { assert OnlyItsWaitAt(rest, run, i - 1); } else { assert Matching(rest, run) == []; }
      }
    }
  }

  lemma {:induction false} FirstEventIsNamed(events: seq<EventFacts>, name: string)
    ensures FirstEvent(events, name).None? ==> forall i :: !FirstNamedAt(events, name, i)
    ensures FirstEvent(events, name).Some? ==> exists i :: FirstNamedAt(events, name, i)
    ensures forall i :: FirstNamedAt(events, name, i) ==> FirstEvent(events, name) == Some(events[i])
  {
    if events != [] {
      var rest := events[1..];
      FirstEventIsNamed(rest, name);
      assert forall i :: 0 < i < |events| ==> events[i] == rest[i - 1];
      if events[0].eventName == name {
        assert FirstNamedAt(events, name, 0);
      } else {
        if FirstEvent(rest, name).Some? {
          var i :| FirstNamedAt(rest, name, i);
          assert FirstNamedAt(events, name, i + 1);
        }
        forall i | FirstNamedAt(events, name, i)
          ensures FirstEvent(events, name) == Some(events[i]) && FirstNamedAt(rest, name, i - 1)
        {
          assert FirstNamedAt(rest, name, i - 1);
        }
      }
    }
  }
}
