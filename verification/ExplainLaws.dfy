/** What the table covers, what it asks for, and how a chain of diagnoses gets its verdicts. */
module ExplainLaws {
  import opened Options
  import opened Explain

  function RankOf(cause: Cause): (rank: nat)
    requires cause != NoCause
    ensures rank < |ORDER| && ORDER[rank] == cause
  {
    match cause
    case UnreadableFacts => 0 case TerminalTaskWithALiveRun => 1 case CompletedTask => 2 case CancelledTask => 3
    case FailedByAnEngineReason => 4 case FailedAttemptsExhausted => 5 case FailedWithNoRetry => 6
    case LiveTaskWithoutOneLiveRun => 7 case TaskAndRunStatesDiffer => 8 case DeadlineNoSweepCancels => 9
    case CancellationDeadlinePassed => 10 case LapsedLeaseNoSweepReclaims => 11 case LeaseLapsedUnswept => 12
    case RunningPastTheHungBound => 13 case RunningUnderALiveLease => 14 case PendingDelayed => 15
    case DueRunNoClaimAdmits => 16 case WokenUnclaimed => 17 case PendingDueUnclaimed => 18 case BackingOff => 19
    case NeverStarted => 20 case WaitOutlivesItsEvent => 21 case NeverStartedAlpha1Form => 22
    case SleepingPastItsWake => 23 case AwaitingAChild => 24 case AwaitingATimedEvent => 25
    case AwaitingAnUntimedEvent => 26 case SleepingOnATimer => 27
  }

  /** The first condition that does not decline answers, and none is asked after it. */
  lemma {:induction false} FirstIsFirst(view: View, k: nat) returns (first: nat)
    requires k <= |ORDER|
    ensures k <= first <= |ORDER| && forall j :: k <= j < first ==> Arm(view, ORDER[j]).Declines?
    ensures first < |ORDER| ==> !Arm(view, ORDER[first]).Declines? && FirstFrom(view, k) == Arm(view, ORDER[first])
    ensures first == |ORDER| ==> FirstFrom(view, k) == Found(NoCause, None)
    decreases |ORDER| - k
  {
    hide Arm;
    if k < |ORDER| && Arm(view, ORDER[k]).Declines? {
      first := FirstIsFirst(view, k + 1);
    } else {
      first := k;
    }
  }

  // ------------------------------------------------------------------------------------------
  // Coverage.

  /** The facts no cause takes: what a live task's one live run, in the task's own state, may look like then. */
  predicate Uncovered(view: View) {
    && LiveState(view.facts.task.state) && |view.live| == 1
    && var run := view.live[0];
    && run.state == view.facts.task.state
    && !IsPast(view, view.facts.task.cancelAt)
    && (run.state == "running" ==> run.claimExpiresAt.None?)
    && (run.state == "pending" ==> run.availableAt.None?)
    && (run.state == "sleeping" ==>
          && !(InsertedAsleep(run) && run.availableAt.Some?)
          && !(run.availableAt.Some? && run.claimGen.Some? && run.activatedGen.Some?
               && run.activatedGen.value < run.claimGen.value && !StillWaiting(view, run))
          && RegisteredWait(view, run).None? && !OnABareTimer(run)
          && !(IsPast(view, run.availableAt) && view.evidence.admission.Some?
               && view.evidence.admission.value.Admission? && !view.evidence.admission.value.claimTakes))
  }

  /** With every evidence at hand, each condition answers or declines, and never as the cause of no condition. */
  lemma SuppliedAsksNothing(view: View, cause: Cause)
    requires Supplied(view.evidence) && cause != NoCause
    ensures !Arm(view, cause).Needs? && (Arm(view, cause).Found? ==> Arm(view, cause).cause != NoCause)
  {
  }

  lemma UncoveredDeclines(view: View, cause: Cause)
    requires Readable(view.facts) && view.facts.now.Some? && Supplied(view.evidence) && Uncovered(view)
    requires cause != NoCause
    ensures Arm(view, cause).Declines?
  {
  }

  /** A terminal task is always explained. */
  lemma EndedIsCovered(view: View)
    requires Readable(view.facts) && view.facts.task.attempts.Some? && view.facts.task.maxAttempts.Some?
    requires TerminalState(view.facts.task.state)
    ensures exists cause :: cause != NoCause && !Arm(view, cause).Declines?
  {
    var state := view.facts.task.state;
    assert !Arm(view, CompletedTask).Declines? || !Arm(view, CancelledTask).Declines?
        || !Arm(view, FailedAttemptsExhausted).Declines? || !Arm(view, FailedWithNoRetry).Declines?;
  }

  lemma RunnerIsCovered(view: View, run: RunFacts)
    requires Readable(view.facts) && view.facts.now.Some? && Supplied(view.evidence) && view.live == [run]
    requires LiveState(run.state) && run.state != "sleeping" && run.state == view.facts.task.state
    requires !IsPast(view, view.facts.task.cancelAt) && !Uncovered(view)
    ensures exists cause :: cause != NoCause && !Arm(view, cause).Declines?
  {
    if run.state == "running" {
      assert !Arm(view, LeaseLapsedUnswept).Declines? || !Arm(view, RunningUnderALiveLease).Declines?;
    } else {
      assert !Arm(view, PendingDelayed).Declines? || !Arm(view, WokenUnclaimed).Declines?
          || !Arm(view, PendingDueUnclaimed).Declines?;
    }
  }

  lemma LiveIsCovered(view: View)
    requires Readable(view.facts) && view.facts.now.Some? && Supplied(view.evidence) && LiveState(view.facts.task.state)
    requires !Uncovered(view)
    ensures exists cause :: cause != NoCause && !Arm(view, cause).Declines?
  {
    hide Readable, Uncovered;
    if |view.live| != 1 {
      assert !Arm(view, LiveTaskWithoutOneLiveRun).Declines?;
    } else {
      var run := view.live[0];
      if run.state != view.facts.task.state {
        assert !Arm(view, TaskAndRunStatesDiffer).Declines?;
      } else if IsPast(view, view.facts.task.cancelAt) {
        assert !Arm(view, CancellationDeadlinePassed).Declines?;
      } else if run.state == "sleeping" {
        SleeperIsCovered(view, run);
      } else {
        RunnerIsCovered(view, run);
      }
    }
  }

  lemma AwaitIsCovered(view: View, run: RunFacts)
    requires view.facts.now.Some? && Supplied(view.evidence) && view.live == [run] && RegisteredWait(view, run).Some?
    ensures exists cause :: cause != NoCause && !Arm(view, cause).Declines?
  {
    MatchingWaits(view.facts.waits, run);
    assert RegisteredWait(view, run).value.timeoutAt == run.availableAt;
    assert !Arm(view, AwaitingATimedEvent).Declines? || !Arm(view, AwaitingAnUntimedEvent).Declines?
        || !Arm(view, SleepingPastItsWake).Declines?;
  }

  lemma SleeperIsCovered(view: View, run: RunFacts)
    requires Readable(view.facts) && view.facts.now.Some? && Supplied(view.evidence) && view.live == [run]
    requires run.state == "sleeping" && run.state == view.facts.task.state && !IsPast(view, view.facts.task.cancelAt)
    requires !Uncovered(view)
    ensures exists cause :: cause != NoCause && !Arm(view, cause).Declines?
  {
    var wait := RegisteredWait(view, run);
    if InsertedAsleep(run) && run.availableAt.Some? {
      assert !Arm(view, BackingOff).Declines? || !Arm(view, SleepingPastItsWake).Declines?;
    } else if OnABareTimer(run) {
      assert !Arm(view, SleepingOnATimer).Declines? || !Arm(view, SleepingPastItsWake).Declines?;
    } else if wait.Some? {
      AwaitIsCovered(view, run);
    } else if IsPast(view, run.availableAt) && view.evidence.admission.value.Admission?
              && !view.evidence.admission.value.claimTakes {
      assert !Arm(view, DueRunNoClaimAdmits).Declines?;
    } else {
      assert !Arm(view, NeverStarted).Declines?;
    }
  }

  /**
   * Coverage of the cause table, both ways. For readable facts with a clock and counters, once
   * the evidence is supplied, the answer is `unexplained` exactly when the task is live, its
   * one live run is in its state, its deadline has not passed, and the run is running with no
   * lease end, pending with no due instant, or asleep in none of the forms the table knows,
   * and no guard has refused it.
   */
  lemma CoverageIsExact(facts: TaskFacts, evidence: Evidence)
    requires Readable(facts) && facts.now.Some? && facts.task.attempts.Some? && facts.task.maxAttempts.Some?
    requires Supplied(evidence)
    ensures Diagnose(facts, evidence).Answered?
    ensures Diagnose(facts, evidence).diagnosis.cause == NoCause <==> Uncovered(ViewOf(facts, evidence))
  {
    var view := ViewOf(facts, evidence);
    var first := FirstIsFirst(view, 0);
    if first < |ORDER| { SuppliedAsksNothing(view, ORDER[first]); }
    if Uncovered(view) {
      if first < |ORDER| { UncoveredDeclines(view, ORDER[first]); }
    } else {
      if TerminalState(facts.task.state) { EndedIsCovered(view); } else { LiveIsCovered(view); }
      var cause :| cause != NoCause && !Arm(view, cause).Declines?;
      assert ORDER[RankOf(cause)] == cause;
    }
  }

  // ------------------------------------------------------------------------------------------
  // What is asked for.

  const CHILD_RANK: nat := 24

  lemma ArmAsksForWhatIsMissing(view: View, cause: Cause)
    requires Arm(view, cause).Needs?
    ensures !Holds(view.evidence, Arm(view, cause).needed)
    ensures Arm(view, cause).needed.ChildOf? ==> cause == AwaitingAChild
    ensures Arm(view, cause).needed.Admissions? || Arm(view, cause).needed.Checkpoints? ==> RankOf(cause) < CHILD_RANK
  {
  }

  /** The child asked for is the one the facts' own wait names. */
  lemma AsksForTheAwaited(facts: TaskFacts, evidence: Evidence)
    requires Diagnose(facts, evidence).Asks? && Diagnose(facts, evidence).needed.ChildOf?
    ensures AwaitedTask(facts) == Some(Diagnose(facts, evidence).needed.taskId)
  {
    var first := FirstIsFirst(ViewOf(facts, evidence), 0);
    ArmAsksForWhatIsMissing(ViewOf(facts, evidence), ORDER[first]);
    assert ORDER[first] == AwaitingAChild;
  }

  /** No evidence is asked for twice. */
  lemma AsksForWhatIsMissing(facts: TaskFacts, evidence: Evidence)
    requires Diagnose(facts, evidence).Asks?
    ensures !Holds(evidence, Diagnose(facts, evidence).needed)
  {
    hide Arm;
    var first := FirstIsFirst(ViewOf(facts, evidence), 0);
    ArmAsksForWhatIsMissing(ViewOf(facts, evidence), ORDER[first]);
  }

  /** Every condition before the await of a child declines. */
  ghost predicate PastTheGuards(facts: TaskFacts, evidence: Evidence) {
    forall j :: 0 <= j < CHILD_RANK ==> Arm(ViewOf(facts, evidence), ORDER[j]).Declines?
  }

  lemma ChildIsAskedPastTheGuards(facts: TaskFacts, evidence: Evidence)
    requires Diagnose(facts, evidence).Asks? && Diagnose(facts, evidence).needed.ChildOf?
    ensures PastTheGuards(facts, evidence)
  {
    hide Arm, LiveRuns;
    var first := FirstIsFirst(ViewOf(facts, evidence), 0);
    ArmAsksForWhatIsMissing(ViewOf(facts, evidence), ORDER[first]);
    assert first == CHILD_RANK;
  }

  /** The conditions before the await of a child turn on no child and on no waiters. */
  lemma GuardsIgnoreTheChild(facts: TaskFacts, evidence: Evidence, child: Option<ChildEvidence>, waiters: Option<Waiters>)
    requires PastTheGuards(facts, evidence)
    ensures PastTheGuards(facts, evidence.(child := child, waiters := waiters))
  {
    forall j | 0 <= j < CHILD_RANK
      ensures Arm(ViewOf(facts, evidence.(child := child, waiters := waiters)), ORDER[j]).Declines?
    {
      GuardIgnoresTheChild(ViewOf(facts, evidence), ORDER[j], child, waiters);
    }
  }

  lemma GuardIgnoresTheChild(view: View, cause: Cause, child: Option<ChildEvidence>, waiters: Option<Waiters>)
    requires cause != NoCause && RankOf(cause) < CHILD_RANK
    ensures Arm(view.(evidence := view.evidence.(child := child, waiters := waiters)), cause) == Arm(view, cause)
  {
  }

  /** Past the guards, neither the guards' answer nor the checkpoints are asked for again. */
  lemma NoGuardIsAskedPastThem(facts: TaskFacts, evidence: Evidence)
    requires PastTheGuards(facts, evidence) && Diagnose(facts, evidence).Asks?
    ensures !Diagnose(facts, evidence).needed.Admissions? && !Diagnose(facts, evidence).needed.Checkpoints?
  {
    hide Arm;
    var first := FirstIsFirst(ViewOf(facts, evidence), 0);
    ArmAsksForWhatIsMissing(ViewOf(facts, evidence), ORDER[first]);
  }

  // ------------------------------------------------------------------------------------------
  // Verdicts up a chain.

  /** Each diagnosis of the chain is one `Diagnose` answered, its child the evidence it was given. */
  ghost predicate Made(diagnosis: Diagnosis) {
    && (exists facts, evidence :: Diagnose(facts, evidence) == Answered(diagnosis))
    && (diagnosis.child.Some? ==> Made(diagnosis.child.value))
  }

  /** The causes that name a move the engine owes. */
  predicate IsLate(cause: Cause) {
    cause == CancellationDeadlinePassed || cause == LeaseLapsedUnswept || cause == WokenUnclaimed
    || cause == PendingDueUnclaimed || cause == SleepingPastItsWake
  }

  lemma OneVerdict(facts: TaskFacts, evidence: Evidence, d: Diagnosis)
    requires Diagnose(facts, evidence) == Answered(d)
    ensures d.child.Some? ==>
      d.verdict == if d.child.value.verdict != Ok then d.child.value.verdict
                   else if d.child.value.ended then Unexplained else Waiting
    ensures d.child.None? && d.verdict == Stuck ==>
      (IsLate(d.cause) && d.lateMs.Some? && d.lateMs.value > 120_000)
      || (d.cause == AwaitingAChild && d.ring == Some(Ring(false)))
  {
    hide Arm;
  }

  /** A verdict that is not `ok` is the verdict of every task that waits through it. */
  lemma {:induction false} VerdictIsLifted(d: Diagnosis)
    requires Made(d) && Deepest(d).verdict != Ok
    ensures d.verdict == Deepest(d).verdict
    ensures d.child.Some? ==> d.child.value.verdict == Deepest(d).verdict
    decreases d
  {
    var facts, evidence :| Diagnose(facts, evidence) == Answered(d);
    OneVerdict(facts, evidence, d);
    if d.child.Some? { VerdictIsLifted(d.child.value); }
  }

  /** An `ok` at the end of a chain makes every task above it `waiting`, or `unexplained` if that last task has ended. */
  lemma {:induction false} OkIsLifted(d: Diagnosis)
    requires Made(d) && Deepest(d).verdict == Ok && d.child.Some?
    ensures d.verdict == if Deepest(d).ended then Unexplained else Waiting
    decreases d
  {
    var facts, evidence :| Diagnose(facts, evidence) == Answered(d);
    OneVerdict(facts, evidence, d);
    if d.child.value.child.Some? { OkIsLifted(d.child.value); }
  }

  /** `stuck` comes from one of two places alone: the last task is late past the grace, or its await closes a clockless ring. */
  lemma {:induction false} StuckIsLateOrARing(d: Diagnosis)
    requires Made(d) && d.verdict == Stuck
    ensures var last := Deepest(d);
      && last.verdict == Stuck && last.child.None?
      && ((IsLate(last.cause) && last.lateMs.Some? && last.lateMs.value > 120_000)
          || (last.cause == AwaitingAChild && last.ring == Some(Ring(false))))
    decreases d
  {
    var facts, evidence :| Diagnose(facts, evidence) == Answered(d);
    OneVerdict(facts, evidence, d);
    if d.child.Some? { StuckIsLateOrARing(d.child.value); }
  }
}
