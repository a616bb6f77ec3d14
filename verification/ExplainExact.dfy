/**
 * The table of conditions, asked in its order, answers each cause and asks for each piece of
 * evidence exactly when the facts and the evidence tell so, and gives each answer its verdict.
 */
module ExplainExact {
  import opened Options
  import opened Explain
  import opened ExplainLaws
  import opened ExplainCauses

  // ------------------------------------------------------------------------------------------
  // The table as a tree over the task's state and its run's.

  /** A move that is owed: what refuses it, or what is late. */
  function Owed(view: View, taken: Admission -> bool, refused: Cause, late: Said): Said {
    if view.evidence.admission.None? then Needs(Admissions)
    else if view.evidence.admission.value.Moved? || taken(view.evidence.admission.value) then late
    else Found(refused, None)
  }

  const CANCELS: Admission -> bool := (a: Admission) => a.Admission? && a.sweepCancels
  const RECLAIMS: Admission -> bool := (a: Admission) => a.Admission? && a.sweepReclaims
  const TAKES: Admission -> bool := (a: Admission) => a.Admission? && a.claimTakes

  function OfAnEnded(view: View): Said {
    var task := view.facts.task;
    if |view.live| > 0 then Found(TerminalTaskWithALiveRun, None)
    else if task.state == "completed" then Found(CompletedTask, None)
    else if task.state == "cancelled" then Found(CancelledTask, None)
    else if view.facts.outcome.Result? && view.facts.outcome.engineReason.Some? then Found(FailedByAnEngineReason, None)
    else if task.attempts.None? || task.maxAttempts.None? then Found(NoCause, None)
    else if task.attempts.value >= task.maxAttempts.value then Found(FailedAttemptsExhausted, None)
    else Found(FailedWithNoRetry, None)
  }

  function OfARunner(view: View, run: RunFacts): Said {
    if IsPast(view, run.claimExpiresAt) then
      Owed(view, RECLAIMS, LapsedLeaseNoSweepReclaims, Found(LeaseLapsedUnswept, run.claimExpiresAt))
    else if !IsAhead(view, run.claimExpiresAt) then Found(NoCause, None)
    else if FirstPassMs(view, run).Some? && FirstPassMs(view, run).value > HUNG_RUN_MS then Found(RunningPastTheHungBound, None)
    else Found(RunningUnderALiveLease, None)
  }

  function OfAPending(view: View, run: RunFacts): Said {
    if IsAhead(view, run.availableAt) then Found(PendingDelayed, run.availableAt)
    else if !IsPast(view, run.availableAt) then Found(NoCause, None)
    else Owed(view, TAKES, DueRunNoClaimAdmits,
              Found(if run.wakeEvent.Some? then WokenUnclaimed else PendingDueUnclaimed, run.availableAt))
  }

  function OfAnAwait(view: View, run: RunFacts, wait: WaitFacts): Said {
    var event := FirstEvent(view.facts.events, wait.eventName);
    if event.Some? && event.value.emitted then Found(WaitOutlivesItsEvent, None)
    else if IsPast(view, run.availableAt) then Found(SleepingPastItsWake, run.availableAt)
    else if TaskIdOfDoneEvent(wait.eventName).Some? then
      if view.evidence.child.None? then Needs(ChildOf(TaskIdOfDoneEvent(wait.eventName).value))
      else WithWaiters(view, wait, Found(AwaitingAChild, wait.timeoutAt))
    else if IsAhead(view, wait.timeoutAt) then WithWaiters(view, wait, Found(AwaitingATimedEvent, wait.timeoutAt))
    else if wait.timeoutAt.None? then WithWaiters(view, wait, Found(AwaitingAnUntimedEvent, None))
    else Found(NoCause, None)
  }

  function OfATimer(view: View, run: RunFacts): Said {
    if view.evidence.checkpoints.None? then Needs(Checkpoints)
    else if view.evidence.checkpoints.value.UnreadableCheckpoints? then Found(UnreadableFacts, None)
    else if view.evidence.checkpoints.value.count == 0 then Found(NeverStartedAlpha1Form, run.availableAt)
    else if IsPast(view, run.availableAt) then Found(SleepingPastItsWake, run.availableAt)
    else if IsAhead(view, run.availableAt) then Found(SleepingOnATimer, run.availableAt)
    else Found(NoCause, None)
  }

  function OfAnAdmittedSleeper(view: View, run: RunFacts): Said {
    if run.claimGen == Some(0) && IsAhead(view, run.availableAt) then Found(BackingOff, run.availableAt)
    else if run.availableAt.Some? && run.claimGen.Some? && run.activatedGen.Some?
            && run.activatedGen.value < run.claimGen.value && !StillWaiting(view, run)
    then Found(NeverStarted, run.availableAt)
    else if RegisteredWait(view, run).Some? then OfAnAwait(view, run, RegisteredWait(view, run).value)
    else if OnABareTimer(run) then OfATimer(view, run)
    else if run.claimGen == Some(0) && IsPast(view, run.availableAt) then Found(SleepingPastItsWake, run.availableAt)
    else Found(NoCause, None)
  }

  function OfASleeper(view: View, run: RunFacts): Said {
    if IsPast(view, run.availableAt) then Owed(view, TAKES, DueRunNoClaimAdmits, OfAnAdmittedSleeper(view, run))
    else OfAnAdmittedSleeper(view, run)
  }

  function OfALiveRun(view: View, run: RunFacts): Said {
    var task := view.facts.task;
    if run.state != task.state then Found(TaskAndRunStatesDiffer, None)
    else if IsPast(view, task.cancelAt) then
      Owed(view, CANCELS, DeadlineNoSweepCancels, Found(CancellationDeadlinePassed, task.cancelAt))
    else if run.state == "running" then OfARunner(view, run)
    else if run.state == "pending" then OfAPending(view, run)
    else OfASleeper(view, run)
  }

  function TreeOf(view: View): Said {
    if !Readable(view.facts) then Found(UnreadableFacts, None)
    else if TerminalState(view.facts.task.state) then OfAnEnded(view)
    else if |view.live| != 1 then Found(LiveTaskWithoutOneLiveRun, None)
    else OfALiveRun(view, view.live[0])
  }

  lemma OrderIsRanked(k: nat)
    requires k < |ORDER|
    ensures ORDER[k] != NoCause && RankOf(ORDER[k]) == k
  {
    if k < 14 { FrontIsRanked(k); } else { BackIsRanked(k); }
  }

  lemma FrontIsRanked(k: nat)
    requires k < 14
    ensures ORDER[k] != NoCause && RankOf(ORDER[k]) == k
  {
  }

  lemma BackIsRanked(k: nat)
    requires 14 <= k < |ORDER|
    ensures ORDER[k] != NoCause && RankOf(ORDER[k]) == k
  {
  }

  lemma RankedInOrder(cause: Cause)
    requires cause != NoCause
    ensures RankOf(cause) < |ORDER| && ORDER[RankOf(cause)] == cause
  {
  }

  /** A condition that all before decline to is the first that does not. */
  lemma FirstAt(view: View, said: Said, cause: Cause)
    requires cause != NoCause && !said.Declines? && Arm(view, cause) == said
    requires forall other :: other != NoCause && RankOf(other) < RankOf(cause) ==> Arm(view, other).Declines?
    ensures FirstFrom(view, 0) == said
  {
    hide Arm, RankOf, FirstFrom;
    var first := FirstIsFirst(view, 0);
    RankedInOrder(cause);
    if first < |ORDER| { OrderIsRanked(first); }
  }

  lemma NoneSays(view: View)
    requires forall other :: other != NoCause ==> Arm(view, other).Declines?
    ensures FirstFrom(view, 0) == Found(NoCause, None)
  {
    hide Arm, FirstFrom;
    var first := FirstIsFirst(view, 0);
  }

  /** A live task's arms before those of its one run. */
  ghost predicate Settled(view: View, run: RunFacts) {
    Readable(view.facts) && LiveState(view.facts.task.state) && view.live == [run] && run.state == view.facts.task.state
  }

  lemma EndedIsFirst(view: View)
    requires Readable(view.facts) && TerminalState(view.facts.task.state)
    ensures FirstFrom(view, 0) == OfAnEnded(view)
  {
    match OfAnEnded(view)
    case Found(cause, _) =>
      if cause == NoCause { NoneSays(view); } else { FirstAt(view, OfAnEnded(view), cause); }
  }

  lemma DeadlineDeclines(view: View, run: RunFacts, cause: Cause)
    requires Settled(view, run) && IsPast(view, view.facts.task.cancelAt)
    requires cause != NoCause && RankOf(cause) < 9
    ensures Arm(view, cause).Declines?
  {
    hide IsAhead, StillWaiting, FirstEvent, TaskIdOfDoneEvent, Matching;
  }

  lemma DeadlineSays(view: View, run: RunFacts)
    requires view.live == [run] && IsPast(view, view.facts.task.cancelAt)
    ensures Arm(view, DeadlineNoSweepCancels) == Owed(view, CANCELS, DeadlineNoSweepCancels, Declines)
    ensures Arm(view, CancellationDeadlinePassed) == Found(CancellationDeadlinePassed, view.facts.task.cancelAt)
  {
    hide IsAhead, Readable;
  }

  lemma DeadlineIsFirst(view: View, run: RunFacts)
    requires Settled(view, run) && IsPast(view, view.facts.task.cancelAt)
    ensures FirstFrom(view, 0) == OfALiveRun(view, run)
  {
    hide Arm, FirstFrom, Readable, OfARunner, OfAPending, OfASleeper;
    DeadlineSays(view, run);
    forall other | other != NoCause && RankOf(other) < 9 ensures Arm(view, other).Declines? {
      DeadlineDeclines(view, run, other);
    }
    if Arm(view, DeadlineNoSweepCancels).Declines? {
      FirstAt(view, Found(CancellationDeadlinePassed, view.facts.task.cancelAt), CancellationDeadlinePassed);
    } else {
      FirstAt(view, Arm(view, DeadlineNoSweepCancels), DeadlineNoSweepCancels);
    }
  }

  lemma RunnerDeclines(view: View, run: RunFacts, cause: Cause)
    requires Settled(view, run) && !IsPast(view, view.facts.task.cancelAt) && run.state == "running"
    requires cause != NoCause && cause != LapsedLeaseNoSweepReclaims && cause != LeaseLapsedUnswept
    requires cause != RunningPastTheHungBound && cause != RunningUnderALiveLease
    ensures Arm(view, cause).Declines?
  {
    hide IsAhead, StillWaiting, FirstEvent, TaskIdOfDoneEvent, Matching;
  }

  lemma RunnerSays(view: View, run: RunFacts)
    requires view.live == [run] && run.state == "running"
    ensures Arm(view, LapsedLeaseNoSweepReclaims) ==
      if !IsPast(view, run.claimExpiresAt) then Declines else Owed(view, RECLAIMS, LapsedLeaseNoSweepReclaims, Declines)
    ensures Arm(view, LeaseLapsedUnswept) == When(IsPast(view, run.claimExpiresAt), LeaseLapsedUnswept, run.claimExpiresAt)
    ensures Arm(view, RunningPastTheHungBound) ==
      When(IsAhead(view, run.claimExpiresAt) && FirstPassMs(view, run).Some? && FirstPassMs(view, run).value > HUNG_RUN_MS,
           RunningPastTheHungBound, None)
    ensures Arm(view, RunningUnderALiveLease) == When(IsAhead(view, run.claimExpiresAt), RunningUnderALiveLease, None)
  {
    hide IsAhead, IsPast, Readable, FirstPassMs;
  }

  lemma RunnerIsFirst(view: View, run: RunFacts)
    requires Settled(view, run) && !IsPast(view, view.facts.task.cancelAt) && run.state == "running"
    ensures FirstFrom(view, 0) == OfARunner(view, run)
  {
    hide Arm, FirstFrom, Readable, FirstPassMs;
    RunnerSays(view, run);
    forall other | other != NoCause && other != LapsedLeaseNoSweepReclaims && other != LeaseLapsedUnswept
                   && other != RunningPastTheHungBound && other != RunningUnderALiveLease
      ensures Arm(view, other).Declines?
    {
      RunnerDeclines(view, run, other);
    }
    var said := OfARunner(view, run);
    if !Arm(view, LapsedLeaseNoSweepReclaims).Declines? { FirstAt(view, said, LapsedLeaseNoSweepReclaims); }
    else if IsPast(view, run.claimExpiresAt) { FirstAt(view, said, LeaseLapsedUnswept); }
    else if !IsAhead(view, run.claimExpiresAt) { NoneSays(view); }
    else if !Arm(view, RunningPastTheHungBound).Declines? { FirstAt(view, said, RunningPastTheHungBound); }
    else { FirstAt(view, said, RunningUnderALiveLease); }
  }

  lemma PendingDeclines(view: View, run: RunFacts, cause: Cause)
    requires Settled(view, run) && !IsPast(view, view.facts.task.cancelAt) && run.state == "pending"
    requires cause != NoCause && cause != PendingDelayed && cause != DueRunNoClaimAdmits && cause != WokenUnclaimed
    requires cause != PendingDueUnclaimed
    ensures Arm(view, cause).Declines?
  {
    hide IsAhead, StillWaiting, FirstEvent, TaskIdOfDoneEvent, Matching;
  }

  lemma PendingSays(view: View, run: RunFacts)
    requires view.live == [run] && run.state == "pending"
    ensures Arm(view, PendingDelayed) == When(IsAhead(view, run.availableAt), PendingDelayed, run.availableAt)
    ensures Arm(view, DueRunNoClaimAdmits) ==
      if !IsPast(view, run.availableAt) then Declines else Owed(view, TAKES, DueRunNoClaimAdmits, Declines)
    ensures Arm(view, WokenUnclaimed) ==
      When(IsPast(view, run.availableAt) && run.wakeEvent.Some?, WokenUnclaimed, run.availableAt)
    ensures Arm(view, PendingDueUnclaimed) ==
      When(IsPast(view, run.availableAt) && run.wakeEvent.None?, PendingDueUnclaimed, run.availableAt)
  {
    hide IsAhead, IsPast, Readable;
  }

  lemma PendingIsFirst(view: View, run: RunFacts)
    requires Settled(view, run) && !IsPast(view, view.facts.task.cancelAt) && run.state == "pending"
    ensures FirstFrom(view, 0) == OfAPending(view, run)
  {
    hide Arm, FirstFrom, Readable;
    PendingSays(view, run);
    forall other | other != NoCause && other != PendingDelayed && other != DueRunNoClaimAdmits && other != WokenUnclaimed
                   && other != PendingDueUnclaimed
      ensures Arm(view, other).Declines?
    {
      PendingDeclines(view, run, other);
    }
    var said := OfAPending(view, run);
    if IsAhead(view, run.availableAt) { FirstAt(view, said, PendingDelayed); }
    else if !IsPast(view, run.availableAt) { NoneSays(view); }
    else if !Arm(view, DueRunNoClaimAdmits).Declines? { FirstAt(view, said, DueRunNoClaimAdmits); }
    else if run.wakeEvent.Some? { FirstAt(view, said, WokenUnclaimed); }
    else { FirstAt(view, said, PendingDueUnclaimed); }
  }

  /** Of a sleeping run, every arm before its own forms declines. */
  lemma SleeperDeclines(view: View, run: RunFacts, cause: Cause)
    requires Settled(view, run) && !IsPast(view, view.facts.task.cancelAt) && run.state == "sleeping"
    requires cause != NoCause && RankOf(cause) < 19 && cause != DueRunNoClaimAdmits
    ensures Arm(view, cause).Declines?
  {
  }

  /** What the arms of a parked run say. */
  lemma AwaitSays(view: View, run: RunFacts, wait: WaitFacts)
    requires view.live == [run] && RegisteredWait(view, run) == Some(wait)
    ensures var event := FirstEvent(view.facts.events, wait.eventName);
      Arm(view, WaitOutlivesItsEvent) == When(event.Some? && event.value.emitted, WaitOutlivesItsEvent, None)
    ensures Arm(view, SleepingPastItsWake) == When(IsPast(view, run.availableAt), SleepingPastItsWake, run.availableAt)
    ensures Arm(view, AwaitingAChild) ==
      if TaskIdOfDoneEvent(wait.eventName).None? then Declines
      else if view.evidence.child.None? then Needs(ChildOf(TaskIdOfDoneEvent(wait.eventName).value))
      else WithWaiters(view, wait, Found(AwaitingAChild, wait.timeoutAt))
  {
    hide RegisteredWait, FirstEvent, Readable, TaskIdOfDoneEvent, WithWaiters, StillWaiting, IsPast, IsAhead;
  }

  lemma AwaitIsNoTimer(view: View, run: RunFacts, wait: WaitFacts)
    requires view.live == [run] && RegisteredWait(view, run) == Some(wait)
    ensures Arm(view, NeverStartedAlpha1Form).Declines? && Arm(view, SleepingOnATimer).Declines?
  {
    hide Matching, Readable, IsPast, IsAhead;
  }

  lemma AwaitSaysWhen(view: View, run: RunFacts, wait: WaitFacts)
    requires view.live == [run] && RegisteredWait(view, run) == Some(wait)
    ensures Arm(view, AwaitingATimedEvent) ==
      if IsAhead(view, wait.timeoutAt) then WithWaiters(view, wait, Found(AwaitingATimedEvent, wait.timeoutAt)) else Declines
    ensures Arm(view, AwaitingAnUntimedEvent) ==
      if wait.timeoutAt.None? then WithWaiters(view, wait, Found(AwaitingAnUntimedEvent, None)) else Declines
  {
    hide RegisteredWait, FirstEvent, Readable, TaskIdOfDoneEvent, WithWaiters, StillWaiting, IsPast, IsAhead;
  }

  /** The arms of a sleeping run's own forms, in their order, after all others declined. */
  lemma FirstOfSleeper(view: View, said: Said, cause: Cause)
    requires cause != NoCause && !said.Declines? && Arm(view, cause) == said && RankOf(cause) >= 21
    requires forall other :: other != NoCause && RankOf(other) < 21 ==> Arm(view, other).Declines?
    requires RankOf(cause) > 21 ==> Arm(view, WaitOutlivesItsEvent).Declines?
    requires RankOf(cause) > 22 ==> Arm(view, NeverStartedAlpha1Form).Declines?
    requires RankOf(cause) > 23 ==> Arm(view, SleepingPastItsWake).Declines?
    requires RankOf(cause) > 24 ==> Arm(view, AwaitingAChild).Declines?
    requires RankOf(cause) > 25 ==> Arm(view, AwaitingATimedEvent).Declines?
    requires RankOf(cause) > 26 ==> Arm(view, AwaitingAnUntimedEvent).Declines?
    ensures FirstFrom(view, 0) == said
  {
    hide Arm, FirstFrom;
    forall other | other != NoCause && RankOf(other) < RankOf(cause) ensures Arm(view, other).Declines? {
    }
    FirstAt(view, said, cause);
  }

  lemma NoneOfSleeper(view: View)
    requires forall other :: other != NoCause && RankOf(other) < 21 ==> Arm(view, other).Declines?
    requires Arm(view, WaitOutlivesItsEvent).Declines? && Arm(view, NeverStartedAlpha1Form).Declines?
    requires Arm(view, SleepingPastItsWake).Declines? && Arm(view, AwaitingAChild).Declines?
    requires Arm(view, AwaitingATimedEvent).Declines? && Arm(view, AwaitingAnUntimedEvent).Declines?
    requires Arm(view, SleepingOnATimer).Declines?
    ensures FirstFrom(view, 0) == Found(NoCause, None)
  {
    hide Arm, FirstFrom;
    forall other | other != NoCause ensures Arm(view, other).Declines? {
    }
    NoneSays(view);
  }

  /** A sleeping run's arms before its own forms decline. */
  ghost predicate ComesToItsForms(view: View) {
    forall other :: other != NoCause && RankOf(other) < 21 ==> Arm(view, other).Declines?
  }

  lemma AwaitIsFirst(view: View, run: RunFacts, wait: WaitFacts)
    requires view.live == [run] && RegisteredWait(view, run) == Some(wait) && ComesToItsForms(view)
    ensures FirstFrom(view, 0) == OfAnAwait(view, run, wait)
  {
    hide Arm, FirstFrom, RegisteredWait, TaskIdOfDoneEvent, FirstEvent, IsPast, IsAhead;
    AwaitSays(view, run, wait);
    AwaitIsNoTimer(view, run, wait);
    AwaitSaysWhen(view, run, wait);
    var said := OfAnAwait(view, run, wait);
    var event := FirstEvent(view.facts.events, wait.eventName);
    if event.Some? && event.value.emitted { FirstOfSleeper(view, said, WaitOutlivesItsEvent); }
    else if IsPast(view, run.availableAt) { FirstOfSleeper(view, said, SleepingPastItsWake); }
    else if TaskIdOfDoneEvent(wait.eventName).Some? { FirstOfSleeper(view, said, AwaitingAChild); }
    else if IsAhead(view, wait.timeoutAt) { FirstOfSleeper(view, said, AwaitingATimedEvent); }
    else if wait.timeoutAt.None? { FirstOfSleeper(view, said, AwaitingAnUntimedEvent); }
    else { NoneOfSleeper(view); }
  }

  /** What the arms of a run that no wait parks say. */
  lemma UnparkedDeclines(view: View, run: RunFacts)
    requires view.live == [run] && RegisteredWait(view, run).None?
    ensures Arm(view, WaitOutlivesItsEvent).Declines? && Arm(view, AwaitingAChild).Declines?
    ensures Arm(view, AwaitingATimedEvent).Declines? && Arm(view, AwaitingAnUntimedEvent).Declines?
  {
    hide RegisteredWait, FirstEvent, Readable, TaskIdOfDoneEvent, WithWaiters, StillWaiting;
  }

  lemma UnparkedSays(view: View, run: RunFacts)
    requires view.live == [run] && RegisteredWait(view, run).None?
    ensures Arm(view, SleepingPastItsWake) ==
      When((OnABareTimer(run) || InsertedAsleep(run)) && IsPast(view, run.availableAt), SleepingPastItsWake, run.availableAt)
    ensures Arm(view, SleepingOnATimer) ==
      When(OnABareTimer(run) && IsAhead(view, run.availableAt), SleepingOnATimer, run.availableAt)
    ensures !OnABareTimer(run) ==> Arm(view, NeverStartedAlpha1Form).Declines?
  {
    hide RegisteredWait, FirstEvent, Readable, TaskIdOfDoneEvent, WithWaiters, StillWaiting, OnABareTimer, InsertedAsleep,
         IsPast, IsAhead;
  }

  lemma TimerIsUnparked(view: View, run: RunFacts)
    requires OnABareTimer(run)
    ensures RegisteredWait(view, run).None?
  {
  }

  lemma TimerIsFirst(view: View, run: RunFacts)
    requires view.live == [run] && OnABareTimer(run) && ComesToItsForms(view)
    ensures FirstFrom(view, 0) == OfATimer(view, run)
  {
    hide RegisteredWait, FirstFrom, OnABareTimer, FirstEvent, Readable, TaskIdOfDoneEvent, WithWaiters, StillWaiting, IsPast,
         IsAhead;
    TimerIsUnparked(view, run);
    UnparkedDeclines(view, run);
    UnparkedSays(view, run);
    TimerSays(view, run);
    TimerInOrder(view, run);
  }

  lemma TimerSays(view: View, run: RunFacts)
    requires view.live == [run] && OnABareTimer(run)
    ensures Arm(view, NeverStartedAlpha1Form) ==
      if view.evidence.checkpoints.None? then Needs(Checkpoints)
      else if view.evidence.checkpoints.value.UnreadableCheckpoints? then Found(UnreadableFacts, None)
      else When(view.evidence.checkpoints.value.count == 0, NeverStartedAlpha1Form, run.availableAt)
  {
    hide RegisteredWait, FirstEvent, Readable, TaskIdOfDoneEvent, WithWaiters, StillWaiting, OnABareTimer, InsertedAsleep,
         IsPast, IsAhead;
  }

  lemma TimerInOrder(view: View, run: RunFacts)
    requires ComesToItsForms(view) && OnABareTimer(run)
    requires Arm(view, WaitOutlivesItsEvent).Declines? && Arm(view, AwaitingAChild).Declines?
    requires Arm(view, AwaitingATimedEvent).Declines? && Arm(view, AwaitingAnUntimedEvent).Declines?
    requires Arm(view, NeverStartedAlpha1Form) ==
      if view.evidence.checkpoints.None? then Needs(Checkpoints)
      else if view.evidence.checkpoints.value.UnreadableCheckpoints? then Found(UnreadableFacts, None)
      else When(view.evidence.checkpoints.value.count == 0, NeverStartedAlpha1Form, run.availableAt)
    requires Arm(view, SleepingPastItsWake) == When(IsPast(view, run.availableAt), SleepingPastItsWake, run.availableAt)
    requires Arm(view, SleepingOnATimer) == When(IsAhead(view, run.availableAt), SleepingOnATimer, run.availableAt)
    ensures FirstFrom(view, 0) == OfATimer(view, run)
  {
    hide Arm, FirstFrom, OnABareTimer;
    var said := OfATimer(view, run);
    if !Arm(view, NeverStartedAlpha1Form).Declines? { FirstOfSleeper(view, said, NeverStartedAlpha1Form); }
    else if IsPast(view, run.availableAt) { FirstOfSleeper(view, said, SleepingPastItsWake); }
    else if IsAhead(view, run.availableAt) { FirstOfSleeper(view, said, SleepingOnATimer); }
    else { NoneOfSleeper(view); }
  }

  lemma FormsAreReached(view: View, run: RunFacts)
    requires Settled(view, run) && !IsPast(view, view.facts.task.cancelAt) && run.state == "sleeping"
    requires Arm(view, DueRunNoClaimAdmits).Declines? && Arm(view, BackingOff).Declines? && Arm(view, NeverStarted).Declines?
    ensures ComesToItsForms(view)
  {
    hide Arm;
    forall other | other != NoCause && RankOf(other) < 21 ensures Arm(view, other).Declines? {
      if other != DueRunNoClaimAdmits && RankOf(other) < 19 { SleeperDeclines(view, run, other); }
    }
  }

  lemma SleeperSays(view: View, run: RunFacts)
    requires view.live == [run] && run.state == "sleeping"
    ensures Arm(view, DueRunNoClaimAdmits) ==
      if !IsPast(view, run.availableAt) then Declines else Owed(view, TAKES, DueRunNoClaimAdmits, Declines)
    ensures Arm(view, BackingOff) == When(run.claimGen == Some(0) && IsAhead(view, run.availableAt), BackingOff, run.availableAt)
    ensures Arm(view, NeverStarted) ==
      When(run.availableAt.Some? && run.claimGen.Some? && run.activatedGen.Some?
           && run.activatedGen.value < run.claimGen.value && !StillWaiting(view, run), NeverStarted, run.availableAt)
  {
    hide IsAhead, IsPast, Readable, StillWaiting;
  }

  lemma SleeperIsFirst(view: View, run: RunFacts)
    requires Settled(view, run) && !IsPast(view, view.facts.task.cancelAt) && run.state == "sleeping"
    ensures FirstFrom(view, 0) == OfASleeper(view, run)
  {
    hide Arm, Readable, RegisteredWait, FirstFrom, OfAnAwait, OfATimer, ComesToItsForms, StillWaiting, IsAhead;
    SleeperSays(view, run);
    forall other | other != NoCause && RankOf(other) < 19 && other != DueRunNoClaimAdmits ensures Arm(view, other).Declines? {
      SleeperDeclines(view, run, other);
    }
    var said := OfAnAdmittedSleeper(view, run);
    if !Arm(view, DueRunNoClaimAdmits).Declines? { FirstAt(view, Arm(view, DueRunNoClaimAdmits), DueRunNoClaimAdmits); }
    else if !Arm(view, BackingOff).Declines? { FirstAt(view, said, BackingOff); }
    else if !Arm(view, NeverStarted).Declines? { FirstAt(view, said, NeverStarted); }
    else { FormIsFirst(view, run); }
  }

  lemma FormIsFirst(view: View, run: RunFacts)
    requires Settled(view, run) && !IsPast(view, view.facts.task.cancelAt) && run.state == "sleeping"
    requires Arm(view, DueRunNoClaimAdmits).Declines? && Arm(view, BackingOff).Declines? && Arm(view, NeverStarted).Declines?
    ensures FirstFrom(view, 0) ==
      if RegisteredWait(view, run).Some? then OfAnAwait(view, run, RegisteredWait(view, run).value)
      else if OnABareTimer(run) then OfATimer(view, run)
      else if InsertedAsleep(run) && IsPast(view, run.availableAt) then Found(SleepingPastItsWake, run.availableAt)
      else Found(NoCause, None)
  {
    hide Arm, RegisteredWait, FirstFrom, OfAnAwait, OfATimer;
    FormsAreReached(view, run);
    if RegisteredWait(view, run).Some? {
      AwaitIsFirst(view, run, RegisteredWait(view, run).value);
    } else if OnABareTimer(run) {
      TimerIsFirst(view, run);
    } else {
      UnparkedDeclines(view, run);
      UnparkedSays(view, run);
      if InsertedAsleep(run) && IsPast(view, run.availableAt) {
        FirstOfSleeper(view, Found(SleepingPastItsWake, run.availableAt), SleepingPastItsWake);
      } else {
        NoneOfSleeper(view);
      }
    }
  }

  /** What the first condition says is what the tree says. */
  lemma TreeIsFirst(view: View)
    ensures FirstFrom(view, 0) == TreeOf(view)
  {
    hide FirstFrom, OfAnEnded, OfARunner, OfAPending, OfASleeper;
    if !Readable(view.facts) {
      FirstAt(view, Found(UnreadableFacts, None), UnreadableFacts);
    } else if TerminalState(view.facts.task.state) {
      EndedIsFirst(view);
    } else if |view.live| != 1 {
      FirstAt(view, Found(LiveTaskWithoutOneLiveRun, None), LiveTaskWithoutOneLiveRun);
    } else {
      var run := view.live[0];
      if run.state != view.facts.task.state {
        FirstAt(view, Found(TaskAndRunStatesDiffer, None), TaskAndRunStatesDiffer);
      } else if IsPast(view, view.facts.task.cancelAt) {
        DeadlineIsFirst(view, run);
      } else if run.state == "running" {
        RunnerIsFirst(view, run);
      } else if run.state == "pending" {
        PendingIsFirst(view, run);
      } else {
        SleeperIsFirst(view, run);
      }
    }
  }

  // ------------------------------------------------------------------------------------------
  // The tree says what the facts tell.

  lemma LegibleIsReadable(facts: TaskFacts)
    ensures Legible(facts) <==> Readable(facts)
  {
    assert forall i :: 0 <= i < |facts.runs| ==> facts.runs[i] in facts.runs;
    assert forall i :: 0 <= i < |facts.waits| ==> facts.waits[i] in facts.waits;
  }

  lemma LiveIsOne(facts: TaskFacts)
    ensures var live := LiveRuns(facts.runs);
      && (|live| == 0 <==> NoLiveRun(facts))
      && (forall run :: OneLiveRun(facts, run) <==> live == [run])
  {
    LiveRunsOfOne(facts.runs);
  }

  /** The parked wait is the registered one. */
  lemma ParkedIsRegistered(view: View, run: RunFacts)
    requires run.state == "sleeping"
    ensures forall wait :: Parked(view.facts, run, wait) <==> RegisteredWait(view, run) == Some(wait)
    ensures RegisteredWait(view, run).Some? ==>
      Activated(run) && run.wakeEvent == Some(RegisteredWait(view, run).value.eventName)
      && RegisteredWait(view, run).value.timeoutAt == run.availableAt
  {
    MatchingOfOne(view.facts.waits, run);
    StartedIsActivated(run);
    hide Matching;
    var matching := Matching(view.facts.waits, run);
    if |matching| == 1 {
      var i :| OnlyItsWaitAt(view.facts.waits, run, i) && view.facts.waits[i] == matching[0];
      assert IsItsWait(run, matching[0]);
    }
    forall wait ensures Parked(view.facts, run, wait) <==> RegisteredWait(view, run) == Some(wait) {
      if Parked(view.facts, run, wait) {
        var i :| OnlyItsWaitAt(view.facts.waits, run, i) && view.facts.waits[i] == wait;
        assert IsItsWait(run, wait) && matching == [wait];
      }
    }
  }

  lemma StartedIsActivated(run: RunFacts)
    ensures Started(run) <==> Activated(run)
  {
    if Activated(run) { assert run.claimGen.value > 0 && run.claimGen == Some(run.claimGen.value); }
  }

  lemma EmittedIsFirst(facts: TaskFacts, name: string)
    ensures Emitted(facts, name) <==> FirstEvent(facts.events, name).Some? && FirstEvent(facts.events, name).value.emitted
  {
    FirstEventIsNamed(facts.events, name);
  }

  lemma ChildIsNamed(name: string)
    ensures OfAChild(name) <==> TaskIdOfDoneEvent(name).Some?
    ensures forall taskId :: name == "$task-done:" + taskId <==> TaskIdOfDoneEvent(name) == Some(taskId)
  {
    if OfAChild(name) { assert name == "$task-done:" + name[11..]; }
    forall taskId ensures name == "$task-done:" + taskId <==> TaskIdOfDoneEvent(name) == Some(taskId) {
      if name == "$task-done:" + taskId { assert name[..11] == "$task-done:" && name[11..] == taskId; }
    }
  }

  lemma NeverActivatedIsStill(view: View, run: RunFacts)
    ensures NeverActivated(view.facts, run) <==>
      run.availableAt.Some? && run.claimGen.Some? && run.activatedGen.Some?
      && run.activatedGen.value < run.claimGen.value && !StillWaiting(view, run)
  {
    assert forall i :: 0 <= i < |view.facts.waits| ==> view.facts.waits[i] in view.facts.waits;
  }

  lemma GuardsRefuse(evidence: Evidence)
    ensures SweepWillNotCancel(evidence) <==>
      evidence.admission.Some? && evidence.admission.value.Admission? && !evidence.admission.value.sweepCancels
    ensures SweepWillNotReclaim(evidence) <==>
      evidence.admission.Some? && evidence.admission.value.Admission? && !evidence.admission.value.sweepReclaims
    ensures ClaimWillNotTake(evidence) <==>
      evidence.admission.Some? && evidence.admission.value.Admission? && !evidence.admission.value.claimTakes
  {
    if evidence.admission.Some? && evidence.admission.value.Admission? {
      var a := evidence.admission.value;
      assert evidence.admission == Some(Admission.Admission(a.claimTakes, a.sweepReclaims, a.sweepCancels));
    }
  }

  /** The tree answers the cause the facts tell, or asks for what they ask. */
  ghost predicate Agrees(facts: TaskFacts, evidence: Evidence, said: Said) {
    match said
    case Found(cause, _) => Tells(facts, evidence, cause)
    case Needs(needed) => AsksFor(facts, evidence, needed)
    case Declines => false
  }

  /** The run a condition speaks of is the one the tree reads. */
  lemma SoundIsRead(facts: TaskFacts, evidence: Evidence, run: RunFacts)
    requires Sound(facts, run)
    ensures ViewOf(facts, evidence).live == [run] && TreeOf(ViewOf(facts, evidence)) == OfALiveRun(ViewOf(facts, evidence), run)
  {
    hide OfALiveRun, LiveRuns, OnlyLiveAt;
    LegibleIsReadable(facts);
    LiveIsOne(facts);
  }

  lemma AsleepIsRead(facts: TaskFacts, evidence: Evidence, run: RunFacts)
    requires Asleep(facts, evidence, run)
    ensures ViewOf(facts, evidence).live == [run]
    ensures TreeOf(ViewOf(facts, evidence)) == OfAnAdmittedSleeper(ViewOf(facts, evidence), run)
  {
    hide OfAnAdmittedSleeper, TreeOf, LiveRuns;
    SoundIsRead(facts, evidence, run);
    GuardsRefuse(evidence);
  }

  /** A parked run is no other sleeper. */
  lemma AwaitIsRead(facts: TaskFacts, evidence: Evidence, run: RunFacts, wait: WaitFacts)
    requires Asleep(facts, evidence, run) && Parked(facts, run, wait)
    ensures TreeOf(ViewOf(facts, evidence)) == OfAnAwait(ViewOf(facts, evidence), run, wait)
    ensures wait.timeoutAt == run.availableAt
  {
    hide OfAnAwait, TreeOf, LiveRuns;
    AsleepIsRead(facts, evidence, run);
    ParkedIsRegistered(ViewOf(facts, evidence), run);
    hide RegisteredWait, Parked;
  }

  lemma TimerIsRead(facts: TaskFacts, evidence: Evidence, run: RunFacts)
    requires OnATimer(facts, evidence, run)
    ensures TreeOf(ViewOf(facts, evidence)) == OfATimer(ViewOf(facts, evidence), run)
  {
    hide OfATimer, TreeOf, LiveRuns;
    AsleepIsRead(facts, evidence, run);
    StartedIsActivated(run);
  }

  ghost predicate Says(facts: TaskFacts, evidence: Evidence, cause: Cause) {
    TreeOf(ViewOf(facts, evidence)).Found? && TreeOf(ViewOf(facts, evidence)).cause == cause
  }

  lemma EndedIsTold(facts: TaskFacts, evidence: Evidence)
    requires Legible(facts) && HasEnded(facts.task.state)
    ensures Agrees(facts, evidence, TreeOf(ViewOf(facts, evidence)))
  {
    LegibleIsReadable(facts);
    LiveIsOne(facts);
  }

  lemma RunnerIsTold(facts: TaskFacts, evidence: Evidence, run: RunFacts)
    requires Undisturbed(facts, run) && run.state == "running"
    ensures Agrees(facts, evidence, TreeOf(ViewOf(facts, evidence)))
  {
    hide TreeOf, LiveRuns, Legible, OneLiveRun;
    SoundIsRead(facts, evidence, run);
    GuardsRefuse(evidence);
  }

  lemma PendingIsTold(facts: TaskFacts, evidence: Evidence, run: RunFacts)
    requires Undisturbed(facts, run) && run.state == "pending"
    ensures Agrees(facts, evidence, TreeOf(ViewOf(facts, evidence)))
  {
    hide TreeOf, LiveRuns, Legible, OneLiveRun;
    SoundIsRead(facts, evidence, run);
    GuardsRefuse(evidence);
  }

  lemma DueSleeperIsTold(facts: TaskFacts, evidence: Evidence, run: RunFacts)
    requires Undisturbed(facts, run) && run.state == "sleeping" && !Asleep(facts, evidence, run)
    ensures Agrees(facts, evidence, TreeOf(ViewOf(facts, evidence)))
  {
    SoundIsRead(facts, evidence, run);
    GuardsRefuse(evidence);
    hide Sound, TreeOf, LiveRuns, OfAnAdmittedSleeper;
  }

  lemma AwaitIsTold(facts: TaskFacts, evidence: Evidence, run: RunFacts, wait: WaitFacts)
    requires Asleep(facts, evidence, run) && Parked(facts, run, wait)
    ensures Agrees(facts, evidence, TreeOf(ViewOf(facts, evidence)))
  {
    hide Asleep, Parked, TreeOf, LiveRuns, TaskIdOfDoneEvent, OfAChild, FirstEvent, Emitted, Agrees, OfAnAwait, Tells, AsksFor;
    AwaitIsRead(facts, evidence, run, wait);
    EmittedIsFirst(facts, wait.eventName);
    if Emitted(facts, wait.eventName) || Gone(facts, run.availableAt) {
      MovedAwaitIsTold(facts, evidence, run, wait);
    } else {
      OpenAwaitIsTold(facts, evidence, run, wait);
    }
  }

  lemma MovedAwaitIsTold(facts: TaskFacts, evidence: Evidence, run: RunFacts, wait: WaitFacts)
    requires Asleep(facts, evidence, run) && Parked(facts, run, wait)
    requires Emitted(facts, wait.eventName) || Gone(facts, run.availableAt)
    ensures Agrees(facts, evidence, OfAnAwait(ViewOf(facts, evidence), run, wait))
  {
    hide Asleep, Parked, LiveRuns, TaskIdOfDoneEvent, OfAChild, FirstEvent, Emitted, FirstNamedAt, Legible;
    EmittedIsFirst(facts, wait.eventName);
    if !Emitted(facts, wait.eventName) { assert KnownSleep(facts, evidence, run); }
  }

  lemma OpenAwaitIsTold(facts: TaskFacts, evidence: Evidence, run: RunFacts, wait: WaitFacts)
    requires Asleep(facts, evidence, run) && Parked(facts, run, wait) && wait.timeoutAt == run.availableAt
    requires !Emitted(facts, wait.eventName) && !Gone(facts, run.availableAt)
    ensures Agrees(facts, evidence, OfAnAwait(ViewOf(facts, evidence), run, wait))
  {
    hide Asleep, Parked, LiveRuns, TaskIdOfDoneEvent, OfAChild, FirstEvent, Emitted, FirstNamedAt, Legible, NeverActivated,
         OnATimer, KnownSleep;
    EmittedIsFirst(facts, wait.eventName);
    ChildIsNamed(wait.eventName);
    assert Awaits(facts, evidence, run, wait);
    if !OfAChild(wait.eventName) && !OfAnEvent(facts, wait) { ClocklessAwaitIsUnknown(facts, evidence, run, wait); }
  }

  lemma AsleepSleeps(facts: TaskFacts, evidence: Evidence, run: RunFacts)
    requires Asleep(facts, evidence, run)
    ensures run.state == "sleeping"
  {
  }

  lemma ClocklessAwaitIsUnknown(facts: TaskFacts, evidence: Evidence, run: RunFacts, wait: WaitFacts)
    requires Awaits(facts, evidence, run, wait) && wait.timeoutAt == run.availableAt && !OfAChild(wait.eventName)
    requires wait.timeoutAt.Some? && facts.now == None
    ensures Asleep(facts, evidence, run) && UnknownSleep(facts, evidence, run)
  {
    hide Asleep, OfAChild, Emitted, IsItsWait;
    AsleepSleeps(facts, evidence, run);
    ParkedIsRegistered(ViewOf(facts, evidence), run);
    assert Started(run);
  }

  lemma TimerIsTold(facts: TaskFacts, evidence: Evidence, run: RunFacts)
    requires OnATimer(facts, evidence, run)
    ensures Agrees(facts, evidence, TreeOf(ViewOf(facts, evidence)))
  {
    hide TreeOf, LiveRuns, Legible, OneLiveRun, NeverActivated;
    TimerIsRead(facts, evidence, run);
    if evidence.checkpoints.Some? && evidence.checkpoints.value.Counted? && evidence.checkpoints.value.count > 0 {
      assert SomeCheckpoint(evidence);
      if facts.now == None { ClocklessTimerIsUnknown(facts, evidence, run); }
      if Gone(facts, run.availableAt) { assert KnownSleep(facts, evidence, run); }
    }
  }

  lemma ClocklessTimerIsUnknown(facts: TaskFacts, evidence: Evidence, run: RunFacts)
    requires OnATimer(facts, evidence, run) && SomeCheckpoint(evidence) && facts.now == None
    ensures UnknownSleep(facts, evidence, run)
  {
    hide Asleep;
  }

  /** A sleeper that is neither parked nor on a timer. */
  lemma OtherSleeperIsTold(facts: TaskFacts, evidence: Evidence, run: RunFacts)
    requires Asleep(facts, evidence, run) && !OnATimer(facts, evidence, run) && forall wait :: !Parked(facts, run, wait)
    ensures Agrees(facts, evidence, TreeOf(ViewOf(facts, evidence)))
  {
    hide TreeOf, LiveRuns, Legible, OneLiveRun, RegisteredWait, StillWaiting, NeverActivated;
    AsleepIsRead(facts, evidence, run);
    ParkedIsRegistered(ViewOf(facts, evidence), run);
    NeverActivatedIsStill(ViewOf(facts, evidence), run);
    StartedIsActivated(run);
  }

  lemma SleeperIsTold(facts: TaskFacts, evidence: Evidence, run: RunFacts)
    requires Asleep(facts, evidence, run)
    ensures Agrees(facts, evidence, TreeOf(ViewOf(facts, evidence)))
  {
    hide Asleep, Parked, OnATimer, Agrees, TreeOf;
    if OnATimer(facts, evidence, run) {
      TimerIsTold(facts, evidence, run);
    } else if wait :| Parked(facts, run, wait) {
      AwaitIsTold(facts, evidence, run, wait);
    } else {
      OtherSleeperIsTold(facts, evidence, run);
    }
  }

  lemma SoundIsTold(facts: TaskFacts, evidence: Evidence, run: RunFacts)
    requires Sound(facts, run)
    ensures Agrees(facts, evidence, TreeOf(ViewOf(facts, evidence)))
  {
    hide TreeOf, LiveRuns, Agrees, OneLiveRun;
    if Gone(facts, facts.task.cancelAt) { DeadlineIsTold(facts, evidence, run); }
    else if run.state == "running" { RunnerIsTold(facts, evidence, run); }
    else if run.state == "pending" { PendingIsTold(facts, evidence, run); }
    else if Asleep(facts, evidence, run) { SleeperIsTold(facts, evidence, run); }
    else { DueSleeperIsTold(facts, evidence, run); }
  }

  lemma DeadlineIsTold(facts: TaskFacts, evidence: Evidence, run: RunFacts)
    requires Sound(facts, run) && Gone(facts, facts.task.cancelAt)
    ensures Agrees(facts, evidence, TreeOf(ViewOf(facts, evidence)))
  {
    hide TreeOf, LiveRuns;
    SoundIsRead(facts, evidence, run);
    GuardsRefuse(evidence);
  }

  /** What the table answers is what the facts tell, and what it asks for is what they ask. */
  lemma AnswerIsTold(facts: TaskFacts, evidence: Evidence)
    ensures Agrees(facts, evidence, TreeOf(ViewOf(facts, evidence)))
  {
    hide LiveRuns, OfALiveRun, OfAnEnded, Sound;
    LegibleIsReadable(facts);
    LiveIsOne(facts);
    var live := LiveRuns(facts.runs);
    if Legible(facts) {
      if HasEnded(facts.task.state) {
        EndedIsTold(facts, evidence);
      } else if |live| == 1 && live[0].state == facts.task.state {
        assert OneLiveRun(facts, live[0]);
        OneIsSound(facts, live[0]);
        SoundIsTold(facts, evidence, live[0]);
      } else {
        UnsoundIsTold(facts, evidence);
      }
    }
  }

  lemma OneIsSound(facts: TaskFacts, run: RunFacts)
    requires Legible(facts) && !HasEnded(facts.task.state) && OneLiveRun(facts, run) && run.state == facts.task.state
    ensures Sound(facts, run)
  {
    hide OneLiveRun;
  }

  lemma UnsoundIsTold(facts: TaskFacts, evidence: Evidence)
    requires Legible(facts) && IsLive(facts.task.state)
    requires var live := LiveRuns(facts.runs); |live| != 1 || live[0].state != facts.task.state
    ensures Agrees(facts, evidence, TreeOf(ViewOf(facts, evidence)))
  {
    hide LiveRuns, OfAnEnded, OnlyLiveAt;
    LegibleIsReadable(facts);
    LiveIsOne(facts);
  }

  // ------------------------------------------------------------------------------------------
  // What the facts tell, the tree says.

  lemma ToldEnded(facts: TaskFacts, evidence: Evidence, cause: Cause)
    requires Tells(facts, evidence, cause) && Legible(facts)
    requires cause == TerminalTaskWithALiveRun || cause == CompletedTask || cause == CancelledTask
          || cause == FailedByAnEngineReason || cause == FailedAttemptsExhausted || cause == FailedWithNoRetry
    ensures Says(facts, evidence, cause)
  {
    LegibleIsReadable(facts);
    LiveIsOne(facts);
  }

  lemma ToldUnsound(facts: TaskFacts, evidence: Evidence, cause: Cause)
    requires Tells(facts, evidence, cause) && (cause == LiveTaskWithoutOneLiveRun || cause == TaskAndRunStatesDiffer)
    ensures Says(facts, evidence, cause)
  {
    hide OnlyLiveAt, LiveRuns;
    LegibleIsReadable(facts);
    LiveIsOne(facts);
    var live := LiveRuns(facts.runs);
    assert |live| == 1 ==> live == [live[0]];
  }

  lemma ToldDeadline(facts: TaskFacts, evidence: Evidence, cause: Cause)
    requires Tells(facts, evidence, cause) && (cause == DeadlineNoSweepCancels || cause == CancellationDeadlinePassed)
    ensures Says(facts, evidence, cause)
  {
    hide TreeOf, LiveRuns, OneLiveRun;
    var run :| Sound(facts, run) && Gone(facts, facts.task.cancelAt);
    SoundIsRead(facts, evidence, run);
    GuardsRefuse(evidence);
  }

  lemma ToldRunner(facts: TaskFacts, evidence: Evidence, cause: Cause, run: RunFacts)
    requires Undisturbed(facts, run) && run.state == "running"
    requires match cause
      case LapsedLeaseNoSweepReclaims => SweepWillNotReclaim(evidence) && Gone(facts, run.claimExpiresAt)
      case LeaseLapsedUnswept => evidence.admission.Some? && !SweepWillNotReclaim(evidence) && Gone(facts, run.claimExpiresAt)
      case RunningPastTheHungBound => Coming(facts, run.claimExpiresAt) && Hung(facts, run)
      case RunningUnderALiveLease => Coming(facts, run.claimExpiresAt) && !Hung(facts, run)
      case NoCause => NoSide(facts, run.claimExpiresAt)
      case _ => false
    ensures Says(facts, evidence, cause)
  {
    hide TreeOf, LiveRuns, OneLiveRun;
    SoundIsRead(facts, evidence, run);
    GuardsRefuse(evidence);
  }

  lemma ToldPending(facts: TaskFacts, evidence: Evidence, cause: Cause, run: RunFacts)
    requires Undisturbed(facts, run) && run.state == "pending"
    requires match cause
      case PendingDelayed => Coming(facts, run.availableAt)
      case DueRunNoClaimAdmits => ClaimWillNotTake(evidence) && Gone(facts, run.availableAt)
      case WokenUnclaimed =>
        evidence.admission.Some? && !ClaimWillNotTake(evidence) && Gone(facts, run.availableAt) && run.wakeEvent != None
      case PendingDueUnclaimed =>
        evidence.admission.Some? && !ClaimWillNotTake(evidence) && Gone(facts, run.availableAt) && run.wakeEvent == None
      case NoCause => NoSide(facts, run.availableAt)
      case _ => false
    ensures Says(facts, evidence, cause)
  {
    hide TreeOf, LiveRuns, OneLiveRun;
    SoundIsRead(facts, evidence, run);
    GuardsRefuse(evidence);
  }

  lemma ToldRefusedSleeper(facts: TaskFacts, evidence: Evidence, run: RunFacts)
    requires Undisturbed(facts, run) && run.state == "sleeping" && ClaimWillNotTake(evidence) && Gone(facts, run.availableAt)
    ensures Says(facts, evidence, DueRunNoClaimAdmits)
  {
    hide TreeOf, LiveRuns, OneLiveRun, OfAnAdmittedSleeper;
    SoundIsRead(facts, evidence, run);
    GuardsRefuse(evidence);
  }

  lemma ToldTimer(facts: TaskFacts, evidence: Evidence, run: RunFacts)
    requires OnATimer(facts, evidence, run)
    ensures evidence.checkpoints == None ==> TreeOf(ViewOf(facts, evidence)) == Needs(Checkpoints)
    ensures evidence.checkpoints == Some(UnreadableCheckpoints) ==> Says(facts, evidence, UnreadableFacts)
    ensures evidence.checkpoints == Some(Counted(0)) ==> Says(facts, evidence, NeverStartedAlpha1Form)
    ensures SomeCheckpoint(evidence) && Gone(facts, run.availableAt) ==> Says(facts, evidence, SleepingPastItsWake)
    ensures SomeCheckpoint(evidence) && Coming(facts, run.availableAt) ==> Says(facts, evidence, SleepingOnATimer)
    ensures SomeCheckpoint(evidence) && facts.now == None ==> Says(facts, evidence, NoCause)
  {
    hide TreeOf, LiveRuns, OneLiveRun;
    TimerIsRead(facts, evidence, run);
  }

  lemma ToldAwait(facts: TaskFacts, evidence: Evidence, run: RunFacts, wait: WaitFacts)
    requires Asleep(facts, evidence, run) && Parked(facts, run, wait)
    ensures wait.timeoutAt == run.availableAt
    ensures Emitted(facts, wait.eventName) ==> Says(facts, evidence, WaitOutlivesItsEvent)
    ensures !Emitted(facts, wait.eventName) && Gone(facts, run.availableAt) ==> Says(facts, evidence, SleepingPastItsWake)
    ensures !Emitted(facts, wait.eventName) && !Gone(facts, run.availableAt) ==>
      TreeOf(ViewOf(facts, evidence)) == OfAnOpenAwait(facts, evidence, wait)
  {
    hide TreeOf, LiveRuns, OneLiveRun, Asleep, Parked, Emitted, FirstEvent, OfAChild, TaskIdOfDoneEvent;
    AwaitIsRead(facts, evidence, run, wait);
    EmittedIsFirst(facts, wait.eventName);
    ChildIsNamed(wait.eventName);
  }

  /** What an await says whose event was not emitted and whose timeout is not behind. */
  ghost function OfAnOpenAwait(facts: TaskFacts, evidence: Evidence, wait: WaitFacts): Said {
    var view := ViewOf(facts, evidence);
    if OfAChild(wait.eventName) then
      if evidence.child.None? then Needs(ChildOf(wait.eventName[11..]))
      else WithWaiters(view, wait, Found(AwaitingAChild, wait.timeoutAt))
    else if Coming(facts, wait.timeoutAt) then WithWaiters(view, wait, Found(AwaitingATimedEvent, wait.timeoutAt))
    else if wait.timeoutAt.None? then WithWaiters(view, wait, Found(AwaitingAnUntimedEvent, None))
    else Found(NoCause, None)
  }

  lemma ToldOther(facts: TaskFacts, evidence: Evidence, run: RunFacts)
    requires Asleep(facts, evidence, run)
    ensures run.claimGen == Some(0) && Coming(facts, run.availableAt) ==> Says(facts, evidence, BackingOff)
    ensures NeverActivated(facts, run) ==> Says(facts, evidence, NeverStarted)
    ensures run.claimGen == Some(0) && Gone(facts, run.availableAt) ==> Says(facts, evidence, SleepingPastItsWake)
    ensures !OnATimer(facts, evidence, run) && (forall wait :: !Parked(facts, run, wait)) && UnknownSleep(facts, evidence, run)
      ==> Says(facts, evidence, NoCause)
  {
    hide TreeOf, LiveRuns, OneLiveRun, RegisteredWait, StillWaiting, NeverActivated, Legible;
    AsleepIsRead(facts, evidence, run);
    ParkedIsRegistered(ViewOf(facts, evidence), run);
    NeverActivatedIsStill(ViewOf(facts, evidence), run);
    StartedIsActivated(run);
  }

  lemma ToldUnknownAwait(facts: TaskFacts, evidence: Evidence, run: RunFacts, wait: WaitFacts)
    requires Asleep(facts, evidence, run) && UnknownSleep(facts, evidence, run)
    requires Parked(facts, run, wait) && !OnATimer(facts, evidence, run)
    ensures Says(facts, evidence, NoCause)
  {
    hide Asleep, Parked, TreeOf, NeverActivated, Emitted, OfAChild, OnATimer;
    ToldAwait(facts, evidence, run, wait);
  }

  lemma ToldUnknown(facts: TaskFacts, evidence: Evidence, run: RunFacts)
    requires Asleep(facts, evidence, run) && UnknownSleep(facts, evidence, run)
    ensures Says(facts, evidence, NoCause)
  {
    hide Asleep, Parked, TreeOf, Says, NeverActivated, Emitted, OfAChild;
    if OnATimer(facts, evidence, run) { ToldTimer(facts, evidence, run); }
    else if wait :| Parked(facts, run, wait) { ToldUnknownAwait(facts, evidence, run, wait); }
    else { ToldOther(facts, evidence, run); }
  }

  lemma ToldSleeper(facts: TaskFacts, evidence: Evidence, cause: Cause)
    requires Tells(facts, evidence, cause)
    requires cause == BackingOff || cause == NeverStarted || cause == WaitOutlivesItsEvent || cause == NeverStartedAlpha1Form
          || cause == SleepingPastItsWake || cause == SleepingOnATimer
    ensures Says(facts, evidence, cause)
  {
    hide Asleep, Parked, OnATimer, Says, NeverActivated, Emitted, SomeCheckpoint;
    match cause
    case BackingOff =>
      var run :| Asleep(facts, evidence, run) && run.claimGen == Some(0) && Coming(facts, run.availableAt);
      ToldOther(facts, evidence, run);
    case NeverStarted =>
      var run :| Asleep(facts, evidence, run) && NeverActivated(facts, run);
      ToldOther(facts, evidence, run);
    case WaitOutlivesItsEvent =>
      var run, wait :| Asleep(facts, evidence, run) && Parked(facts, run, wait) && Emitted(facts, wait.eventName);
      ToldAwait(facts, evidence, run, wait);
    case NeverStartedAlpha1Form =>
      var run :| OnATimer(facts, evidence, run);
      ToldTimer(facts, evidence, run);
    case SleepingOnATimer =>
      var run :| OnATimer(facts, evidence, run) && Coming(facts, run.availableAt);
      ToldTimer(facts, evidence, run);
    case SleepingPastItsWake =>
      var run :| Asleep(facts, evidence, run) && Gone(facts, run.availableAt) && KnownSleep(facts, evidence, run);
      if run.claimGen == Some(0) { ToldOther(facts, evidence, run); }
      else if OnATimer(facts, evidence, run) && SomeCheckpoint(evidence) { ToldTimer(facts, evidence, run); }
      else {
        var wait :| Parked(facts, run, wait) && !Emitted(facts, wait.eventName);
        ToldAwait(facts, evidence, run, wait);
      }
  }

  lemma ToldOpenAwait(facts: TaskFacts, evidence: Evidence, cause: Cause)
    requires Tells(facts, evidence, cause)
    requires cause == AwaitingAChild || cause == AwaitingATimedEvent || cause == AwaitingAnUntimedEvent
    ensures Says(facts, evidence, cause)
  {
    hide Asleep, Parked, TreeOf, Emitted, OfAChild;
    var run, wait :| Awaits(facts, evidence, run, wait)
      && match cause
         case AwaitingAChild => !Gone(facts, run.availableAt) && OfAChild(wait.eventName)
         case AwaitingATimedEvent => !OfAChild(wait.eventName) && Coming(facts, wait.timeoutAt)
         case _ => !OfAChild(wait.eventName) && wait.timeoutAt == None;
    ToldAwait(facts, evidence, run, wait);
  }

  lemma ToldIllegible(facts: TaskFacts, evidence: Evidence)
    requires !Legible(facts)
    ensures Says(facts, evidence, UnreadableFacts)
  {
    hide Legible;
    LegibleIsReadable(facts);
  }

  lemma ToldUnreadable(facts: TaskFacts, evidence: Evidence)
    requires Tells(facts, evidence, UnreadableFacts)
    ensures Says(facts, evidence, UnreadableFacts)
  {
    hide Asleep, Parked, TreeOf, Emitted, OfAChild, OnATimer, Legible;
    if !Legible(facts) {
      ToldIllegible(facts, evidence);
    } else if run :| OnATimer(facts, evidence, run) && evidence.checkpoints == Some(UnreadableCheckpoints) {
      ToldTimer(facts, evidence, run);
    } else {
      var run, wait :| Awaits(facts, evidence, run, wait) && !Gone(facts, run.availableAt)
        && (if OfAChild(wait.eventName) then evidence.child.Some? else OfAnEvent(facts, wait))
        && evidence.waiters.Some? && evidence.waiters.value.corrupt > 0;
      ToldAwait(facts, evidence, run, wait);
    }
  }

  lemma ToldNothing(facts: TaskFacts, evidence: Evidence)
    requires TellsNothing(facts, evidence)
    ensures Says(facts, evidence, NoCause)
  {
    hide Asleep, UnknownSleep, Undisturbed, Says, Legible, NoLiveRun;
    if run :| Undisturbed(facts, run) && run.state == "running" && NoSide(facts, run.claimExpiresAt) {
      ToldRunner(facts, evidence, NoCause, run);
    } else if run :| Undisturbed(facts, run) && run.state == "pending" && NoSide(facts, run.availableAt) {
      ToldPending(facts, evidence, NoCause, run);
    } else if run :| Asleep(facts, evidence, run) && UnknownSleep(facts, evidence, run) {
      ToldUnknown(facts, evidence, run);
    } else {
      ToldUncounted(facts, evidence);
    }
  }

  lemma ToldUncounted(facts: TaskFacts, evidence: Evidence)
    requires Legible(facts) && NoLiveRun(facts) && facts.task.state == "failed" && facts.outcome == Result(None)
    requires !(facts.task.attempts.Some? && facts.task.maxAttempts.Some?)
    ensures Says(facts, evidence, NoCause)
  {
    LegibleIsReadable(facts);
    LiveIsOne(facts);
  }

  lemma ToldIsAnswered(facts: TaskFacts, evidence: Evidence, cause: Cause)
    requires Tells(facts, evidence, cause)
    ensures Says(facts, evidence, cause)
  {
    hide Says, Undisturbed, Hung, SweepWillNotReclaim, SweepWillNotCancel, ClaimWillNotTake, Legible, NoLiveRun, OneLiveRun,
         Sound, Asleep, OnATimer, Awaits, Parked, Emitted, KnownSleep, NeverActivated, OfAChild, OfAnEvent, TellsNothing;
    match cause
    case UnreadableFacts => ToldUnreadable(facts, evidence);
    case TerminalTaskWithALiveRun | CompletedTask | CancelledTask | FailedByAnEngineReason | FailedAttemptsExhausted
       | FailedWithNoRetry => ToldEnded(facts, evidence, cause);
    case LiveTaskWithoutOneLiveRun | TaskAndRunStatesDiffer => ToldUnsound(facts, evidence, cause);
    case DeadlineNoSweepCancels | CancellationDeadlinePassed => ToldDeadline(facts, evidence, cause);
    case LapsedLeaseNoSweepReclaims | LeaseLapsedUnswept =>
      var run :| Undisturbed(facts, run) && run.state == "running" && Gone(facts, run.claimExpiresAt);
      ToldRunner(facts, evidence, cause, run);
    case RunningPastTheHungBound =>
      var run :| Undisturbed(facts, run) && run.state == "running" && Coming(facts, run.claimExpiresAt) && Hung(facts, run);
      ToldRunner(facts, evidence, cause, run);
    case RunningUnderALiveLease =>
      var run :| Undisturbed(facts, run) && run.state == "running" && Coming(facts, run.claimExpiresAt) && !Hung(facts, run);
      ToldRunner(facts, evidence, cause, run);
    case PendingDelayed =>
      var run :| Undisturbed(facts, run) && run.state == "pending" && Coming(facts, run.availableAt);
      ToldPending(facts, evidence, cause, run);
    case DueRunNoClaimAdmits =>
      var run :| Undisturbed(facts, run) && (run.state == "pending" || run.state == "sleeping") && Gone(facts, run.availableAt);
      if run.state == "pending" { ToldPending(facts, evidence, cause, run); } else { ToldRefusedSleeper(facts, evidence, run); }
    case WokenUnclaimed =>
      var run :| Undisturbed(facts, run) && run.state == "pending" && Gone(facts, run.availableAt) && run.wakeEvent != None;
      ToldPending(facts, evidence, cause, run);
    case PendingDueUnclaimed =>
      var run :| Undisturbed(facts, run) && run.state == "pending" && Gone(facts, run.availableAt) && run.wakeEvent == None;
      ToldPending(facts, evidence, cause, run);
    case BackingOff | NeverStarted | WaitOutlivesItsEvent | NeverStartedAlpha1Form | SleepingPastItsWake | SleepingOnATimer =>
      ToldSleeper(facts, evidence, cause);
    case AwaitingAChild | AwaitingATimedEvent | AwaitingAnUntimedEvent => ToldOpenAwait(facts, evidence, cause);
    case NoCause => ToldNothing(facts, evidence);
  }

  lemma AskedForIsAsked(facts: TaskFacts, evidence: Evidence, needed: Needed)
    requires AsksFor(facts, evidence, needed)
    ensures TreeOf(ViewOf(facts, evidence)) == Needs(needed)
  {
    hide TreeOf, Asleep, Parked, Emitted, Sound, OnATimer;
    match needed
    case Admissions =>
      var run :| Sound(facts, run) && OwesAMove(facts, run);
      MoveIsAsked(facts, evidence, run);
    case Checkpoints =>
      var run :| OnATimer(facts, evidence, run);
      ToldTimer(facts, evidence, run);
    case ChildOf(taskId) =>
      var run, wait :| Awaits(facts, evidence, run, wait) && !Gone(facts, run.availableAt)
                       && wait.eventName == "$task-done:" + taskId;
      ToldAwait(facts, evidence, run, wait);
      assert wait.eventName[..11] == "$task-done:" && wait.eventName[11..] == taskId;
    case WaitersOf(name) =>
      var run, wait :| Awaits(facts, evidence, run, wait) && !Gone(facts, run.availableAt) && wait.eventName == name
                       && (if OfAChild(name) then evidence.child.Some? else OfAnEvent(facts, wait));
      ToldAwait(facts, evidence, run, wait);
  }

  lemma MoveIsAsked(facts: TaskFacts, evidence: Evidence, run: RunFacts)
    requires Sound(facts, run) && OwesAMove(facts, run) && evidence.admission == None
    ensures TreeOf(ViewOf(facts, evidence)) == Needs(Admissions)
  {
    hide TreeOf, LiveRuns, OneLiveRun, OfAnAdmittedSleeper;
    SoundIsRead(facts, evidence, run);
  }

  // ------------------------------------------------------------------------------------------
  // The answer, exactly.

  /**
   * Each cause is answered exactly when the facts and the evidence tell it, and each piece of
   * evidence is asked for exactly when they ask for it.
   */
  lemma CauseIsExact(facts: TaskFacts, evidence: Evidence)
    ensures forall cause ::
      Diagnose(facts, evidence).Answered? && Diagnose(facts, evidence).diagnosis.cause == cause <==> Tells(facts, evidence, cause)
    ensures forall needed :: Diagnose(facts, evidence) == Asks(needed) <==> AsksFor(facts, evidence, needed)
  {
    hide Tells, AsksFor, FirstFrom, TreeOf;
    TreeIsFirst(ViewOf(facts, evidence));
    AnswerIsTold(facts, evidence);
    forall cause | Tells(facts, evidence, cause) ensures Says(facts, evidence, cause) {
      ToldIsAnswered(facts, evidence, cause);
    }
    forall needed | AsksFor(facts, evidence, needed) ensures TreeOf(ViewOf(facts, evidence)) == Needs(needed) {
      AskedForIsAsked(facts, evidence, needed);
    }
  }

  /** How late the move is that the cause says the engine owes. */
  ghost predicate LateBy(facts: TaskFacts, cause: Cause, ms: int) {
    facts.now.Some?
    && match cause
       case CancellationDeadlinePassed => facts.task.cancelAt == Some(facts.now.value - ms)
       case LeaseLapsedUnswept => exists run :: OneLiveRun(facts, run) && run.claimExpiresAt == Some(facts.now.value - ms)
       case WokenUnclaimed | PendingDueUnclaimed | SleepingPastItsWake =>
         exists run :: OneLiveRun(facts, run) && run.availableAt == Some(facts.now.value - ms)
       case _ => false
  }

  /** What the task that is awaited was found to be. */
  ghost predicate ThroughAChild(cause: Cause, evidence: Evidence, verdict: Verdict) {
    && cause == AwaitingAChild && evidence.child.Some?
    && match evidence.child.value
       case Absent => verdict == Unexplained
       case NotFollowed => verdict == Unexplained
       case InARing(ring) => verdict == if ring.endedByAClock then Waiting else Stuck
       case Followed(child) =>
         if child.verdict == Ok then verdict == if child.ended then Unexplained else Waiting else verdict == child.verdict
  }

  /** The instant a late move turns on. */
  lemma LateAnswer(view: View, cause: Cause)
    requires Arm(view, cause).Found? && Arm(view, cause).cause == cause
    ensures cause == CancellationDeadlinePassed ==> Arm(view, cause).at == view.facts.task.cancelAt && IsPast(view, Arm(view, cause).at)
    ensures cause == LeaseLapsedUnswept || cause == WokenUnclaimed || cause == PendingDueUnclaimed || cause == SleepingPastItsWake ==>
      |view.live| == 1 && IsPast(view, Arm(view, cause).at)
      && Arm(view, cause).at == if cause == LeaseLapsedUnswept then view.live[0].claimExpiresAt else view.live[0].availableAt
  {
    hide Readable, RegisteredWait, StillWaiting, FirstEvent, TaskIdOfDoneEvent, LiveRuns;
  }

  /** A condition answers its own cause, or that something is unreadable. */
  lemma AnswersItsOwn(view: View, cause: Cause)
    requires Arm(view, cause).Found?
    ensures Arm(view, cause).cause == cause || Arm(view, cause) == Found(UnreadableFacts, None)
  {
    hide Readable, RegisteredWait, StillWaiting, FirstEvent, TaskIdOfDoneEvent, LiveRuns, AwaitedBy;
  }

  lemma LateSaid(view: View)
    requires FirstFrom(view, 0).Found? && IsLate(FirstFrom(view, 0).cause)
    ensures var said := FirstFrom(view, 0);
      && IsPast(view, said.at)
      && (said.cause == CancellationDeadlinePassed ==> said.at == view.facts.task.cancelAt)
      && (said.cause != CancellationDeadlinePassed ==>
            |view.live| == 1
            && said.at == if said.cause == LeaseLapsedUnswept then view.live[0].claimExpiresAt else view.live[0].availableAt)
  {
    hide Arm, FirstFrom, IsPast;
    var first := FirstIsFirst(view, 0);
    if first < |ORDER| {
      AnswersItsOwn(view, ORDER[first]);
      LateAnswer(view, ORDER[first]);
    }
  }

  /** How late an answer is. */
  lemma AnswerIsLate(facts: TaskFacts, evidence: Evidence, d: Diagnosis)
    requires Diagnose(facts, evidence) == Answered(d) && IsLate(d.cause)
    ensures d.lateMs.Some? && d.lateMs.value >= 0 && forall ms :: LateBy(facts, d.cause, ms) <==> ms == d.lateMs.value
  {
    hide FirstFrom, LiveRuns, OneLiveRun;
    var view := ViewOf(facts, evidence);
    LiveIsOne(facts);
    LateSaid(view);
    if |view.live| == 1 {
      assert view.live == [view.live[0]];
      assert OneLiveRun(facts, view.live[0]);
    }
  }

  /**
   * The verdict of an answer. `stuck` holds exactly when the engine owes the task a move more
   * than 120000 ms late, or the task awaits a ring no clock ends or a stuck child; and so each
   * other verdict.
   */
  lemma VerdictIsExact(facts: TaskFacts, evidence: Evidence, d: Diagnosis)
    requires Diagnose(facts, evidence) == Answered(d)
    ensures Tells(facts, evidence, d.cause)
    ensures d.verdict == Stuck <==>
      (exists ms :: LateBy(facts, d.cause, ms) && ms > 120_000) || ThroughAChild(d.cause, evidence, Stuck)
    ensures d.verdict == Waiting <==>
      || d.cause == PendingDelayed || d.cause == BackingOff || d.cause == NeverStarted || d.cause == NeverStartedAlpha1Form
      || d.cause == AwaitingATimedEvent || d.cause == AwaitingAnUntimedEvent || d.cause == SleepingOnATimer
      || (exists ms :: LateBy(facts, d.cause, ms) && ms <= 120_000) || ThroughAChild(d.cause, evidence, Waiting)
    ensures d.verdict == Ok <==>
      || d.cause == CompletedTask || d.cause == CancelledTask || d.cause == FailedByAnEngineReason
      || d.cause == FailedAttemptsExhausted || d.cause == FailedWithNoRetry
      || d.cause == RunningUnderALiveLease || d.cause == RunningPastTheHungBound
    ensures d.verdict == Inconsistent <==>
      || d.cause == UnreadableFacts || d.cause == TerminalTaskWithALiveRun || d.cause == LiveTaskWithoutOneLiveRun
      || d.cause == TaskAndRunStatesDiffer || d.cause == DeadlineNoSweepCancels || d.cause == LapsedLeaseNoSweepReclaims
      || d.cause == DueRunNoClaimAdmits || d.cause == WaitOutlivesItsEvent || ThroughAChild(d.cause, evidence, Inconsistent)
    ensures d.verdict == Unexplained <==> d.cause == NoCause || ThroughAChild(d.cause, evidence, Unexplained)
  {
    hide Tells, Diagnose, LateBy, ThroughAChild;
    CauseIsExact(facts, evidence);
    if IsLate(d.cause) {
      LateVerdict(facts, evidence, d);
    } else if d.cause == AwaitingAChild {
      ChildVerdict(facts, evidence, d);
    } else {
      PlainVerdict(facts, evidence, d);
    }
  }

  lemma LateVerdict(facts: TaskFacts, evidence: Evidence, d: Diagnosis)
    requires Diagnose(facts, evidence) == Answered(d) && IsLate(d.cause)
    ensures d.verdict == if exists ms :: LateBy(facts, d.cause, ms) && ms > 120_000 then Stuck else Waiting
    ensures d.verdict == Waiting <==> exists ms :: LateBy(facts, d.cause, ms) && ms <= 120_000
    ensures forall verdict :: !ThroughAChild(d.cause, evidence, verdict)
  {
    hide FirstFrom, LiveRuns, LateBy;
    AnswerIsLate(facts, evidence, d);
    assert LateBy(facts, d.cause, d.lateMs.value);
  }

  lemma ChildVerdict(facts: TaskFacts, evidence: Evidence, d: Diagnosis)
    requires Diagnose(facts, evidence) == Answered(d) && d.cause == AwaitingAChild && Tells(facts, evidence, d.cause)
    ensures forall verdict :: ThroughAChild(d.cause, evidence, verdict) <==> d.verdict == verdict
    ensures d.verdict != Ok && forall ms :: !LateBy(facts, d.cause, ms)
  {
    hide FirstFrom, LiveRuns, Awaits;
  }

  lemma PlainVerdict(facts: TaskFacts, evidence: Evidence, d: Diagnosis)
    requires Diagnose(facts, evidence) == Answered(d) && !IsLate(d.cause) && d.cause != AwaitingAChild
    ensures (forall verdict :: !ThroughAChild(d.cause, evidence, verdict)) && forall ms :: !LateBy(facts, d.cause, ms)
    ensures d.verdict ==
      match d.cause
      case PendingDelayed | BackingOff | NeverStarted | NeverStartedAlpha1Form | AwaitingATimedEvent | AwaitingAnUntimedEvent
         | SleepingOnATimer => Waiting
      case CompletedTask | CancelledTask | FailedByAnEngineReason | FailedAttemptsExhausted | FailedWithNoRetry
         | RunningUnderALiveLease | RunningPastTheHungBound => Ok
      case NoCause => Unexplained
      case _ => Inconsistent
  {
    hide FirstFrom, LiveRuns;
  }

  lemma SomethingIsSaid(view: View)
    ensures !FirstFrom(view, 0).Declines?
  {
    hide Arm, FirstFrom;
    var first := FirstIsFirst(view, 0);
  }

  /** What else an answer holds: whose it is, whether that task has ended, and the child its await names. */
  lemma AnswerHolds(facts: TaskFacts, evidence: Evidence, d: Diagnosis)
    requires Diagnose(facts, evidence) == Answered(d)
    ensures d.taskId == facts.task.taskId && (d.ended <==> HasEnded(facts.task.state))
    ensures d.cause != AwaitingAChild ==> d.awaits == None && d.ring == None && d.child == None
    ensures d.cause == AwaitingAChild ==>
      && d.awaits.Some?
      && (exists run, wait :: Awaits(facts, evidence, run, wait) && wait.eventName == "$task-done:" + d.awaits.value)
      && d.ring == (if evidence.child.Some? && evidence.child.value.InARing? then Some(evidence.child.value.ring) else None)
      && d.child == if evidence.child.Some? && evidence.child.value.Followed? then Some(evidence.child.value.diagnosis) else None
  {
    hide FirstFrom, LiveRuns, Asleep, Parked, Emitted;
    CauseIsExact(facts, evidence);
    SomethingIsSaid(ViewOf(facts, evidence));
    if d.cause == AwaitingAChild {
      assert Tells(facts, evidence, AwaitingAChild);
      var run, wait :| Awaits(facts, evidence, run, wait) && !Gone(facts, run.availableAt) && OfAChild(wait.eventName);
      AwaitedIsNamed(facts, evidence, run, wait);
    }
  }

  lemma AwaitedIsNamed(facts: TaskFacts, evidence: Evidence, run: RunFacts, wait: WaitFacts)
    requires Awaits(facts, evidence, run, wait) && OfAChild(wait.eventName)
    ensures AwaitedTask(facts).Some? && wait.eventName == "$task-done:" + AwaitedTask(facts).value
  {
    hide TreeOf, LiveRuns, RegisteredWait, Parked;
    AsleepIsRead(facts, evidence, run);
    ParkedIsRegistered(View(facts, NO_EVIDENCE, [run]), run);
    ChildIsNamed(wait.eventName);
  }
}
