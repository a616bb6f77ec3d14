/** The diagnosis of one task: an ordered table of conditions, each answering, asking for evidence, or declining. */
module Explain {
  import opened Options

  const DUE_GRACE_MS: int := 120_000
  const HUNG_RUN_MS: int := 3_600_000
  const CHILD_HOPS: nat := 8
  const TASK_DONE_PREFIX: string := "$task-done:"

  // ------------------------------------------------------------------------------------------
  // The facts.

  datatype RunFacts = RunFacts(
    runId: string, state: string, claimGen: Option<nat>, activatedGen: Option<nat>, availableAt: Option<int>,
    claimExpiresAt: Option<int>, startedAt: Option<int>, wakeEvent: Option<string>, wakeStep: Option<string>)

  datatype WaitFacts = WaitFacts(runId: string, stepName: string, eventName: string, status: string, timeoutAt: Option<int>)

  datatype EventFacts = EventFacts(eventName: string, emitted: bool)

  datatype TaskRowFacts = TaskRowFacts(taskId: string, state: string, attempts: Option<int>, maxAttempts: Option<int>,
                                       cancelAt: Option<int>)

  /** An outcome the decoders take, with the engine's own reason for a failure if it holds one, or one they refuse. */
  datatype OutcomeFacts = Result(engineReason: Option<string>) | Refused

  datatype TaskFacts = TaskFacts(now: Option<int>, task: TaskRowFacts, outcome: OutcomeFacts, runs: seq<RunFacts>,
                                 waits: seq<WaitFacts>, events: seq<EventFacts>, corrupt: nat)

  predicate LiveState(state: string) { state == "pending" || state == "running" || state == "sleeping" }

  predicate TerminalState(state: string) { state == "completed" || state == "failed" || state == "cancelled" }

  predicate EngineState(state: string) { LiveState(state) || TerminalState(state) }

  predicate WaitStatus(status: string) { status == "waiting" || status == "delivered" }

  /** Nothing of the task is unreadable. */
  predicate Readable(facts: TaskFacts) {
    && facts.outcome.Result? && facts.corrupt == 0 && EngineState(facts.task.state)
    && (forall run :: run in facts.runs ==> EngineState(run.state))
    && (forall wait :: wait in facts.waits ==> WaitStatus(wait.status))
  }

  function LiveRuns(runs: seq<RunFacts>): seq<RunFacts> {
    if runs == [] then []
    else if LiveState(runs[0].state) then [runs[0]] + LiveRuns(runs[1..])
    else LiveRuns(runs[1..])
  }

  lemma {:induction false} LiveRunsAreLive(runs: seq<RunFacts>)
    ensures forall run :: run in LiveRuns(runs) <==> run in runs && LiveState(run.state)
  {
    if runs != [] {
      LiveRunsAreLive(runs[1..]);
      assert runs == [runs[0]] + runs[1..];
    }
  }

  // ------------------------------------------------------------------------------------------
  // Causes, verdicts and evidence.

  datatype Verdict = Ok | Waiting | Stuck | Inconsistent | Unexplained

  datatype Rule = Always(verdict: Verdict) | Late | Child

  datatype Cause =
    | UnreadableFacts | TerminalTaskWithALiveRun | CompletedTask | CancelledTask | FailedByAnEngineReason
    | FailedAttemptsExhausted | FailedWithNoRetry | LiveTaskWithoutOneLiveRun | TaskAndRunStatesDiffer
    | DeadlineNoSweepCancels | CancellationDeadlinePassed | LapsedLeaseNoSweepReclaims | LeaseLapsedUnswept
    | RunningPastTheHungBound | RunningUnderALiveLease | PendingDelayed | DueRunNoClaimAdmits | WokenUnclaimed
    | PendingDueUnclaimed | BackingOff | NeverStarted | WaitOutlivesItsEvent | NeverStartedAlpha1Form
    | SleepingPastItsWake | AwaitingAChild | AwaitingATimedEvent | AwaitingAnUntimedEvent | SleepingOnATimer
    | NoCause

  /** The causes in the order they are asked in. */
  const ORDER: seq<Cause> := [
    UnreadableFacts, TerminalTaskWithALiveRun, CompletedTask, CancelledTask, FailedByAnEngineReason,
    FailedAttemptsExhausted, FailedWithNoRetry, LiveTaskWithoutOneLiveRun, TaskAndRunStatesDiffer,
    DeadlineNoSweepCancels, CancellationDeadlinePassed, LapsedLeaseNoSweepReclaims, LeaseLapsedUnswept,
    RunningPastTheHungBound, RunningUnderALiveLease, PendingDelayed, DueRunNoClaimAdmits, WokenUnclaimed,
    PendingDueUnclaimed, BackingOff, NeverStarted, WaitOutlivesItsEvent, NeverStartedAlpha1Form,
    SleepingPastItsWake, AwaitingAChild, AwaitingATimedEvent, AwaitingAnUntimedEvent, SleepingOnATimer]

  /** How each cause gets its verdict. No cause is stuck of itself. */
  function RuleOf(cause: Cause): (rule: Rule)
    ensures rule != Always(Stuck)
  {
    match cause
    case UnreadableFacts | TerminalTaskWithALiveRun | LiveTaskWithoutOneLiveRun | TaskAndRunStatesDiffer
       | DeadlineNoSweepCancels | LapsedLeaseNoSweepReclaims | DueRunNoClaimAdmits | WaitOutlivesItsEvent =>
      Always(Inconsistent)
    case CompletedTask | CancelledTask | FailedByAnEngineReason | FailedAttemptsExhausted | FailedWithNoRetry
       | RunningPastTheHungBound | RunningUnderALiveLease => Always(Ok)
    case CancellationDeadlinePassed | LeaseLapsedUnswept | WokenUnclaimed | PendingDueUnclaimed | SleepingPastItsWake => Late
    case PendingDelayed | BackingOff | NeverStarted | NeverStartedAlpha1Form | AwaitingATimedEvent
       | AwaitingAnUntimedEvent | SleepingOnATimer => Always(Waiting)
    case AwaitingAChild => Child
    case NoCause => Always(Unexplained)
  }

  /** `awaits` is the task an await of a child names. */
  datatype Diagnosis = Diagnosis(taskId: string, cause: Cause, verdict: Verdict, lateMs: Option<int>, ended: bool,
                                 awaits: Option<string>, ring: Option<Ring>, child: Option<Diagnosis>)

  datatype Ring = Ring(endedByAClock: bool)

  datatype ChildEvidence = Followed(diagnosis: Diagnosis) | Absent | NotFollowed | InARing(ring: Ring)

  datatype CheckpointCount = Counted(count: nat) | UnreadableCheckpoints

  datatype Admission = Admission(claimTakes: bool, sweepReclaims: bool, sweepCancels: bool) | Moved

  /** How many waits of the list of waiters are unreadable. */
  datatype Waiters = Waiters(corrupt: nat)

  datatype Evidence = Evidence(checkpoints: Option<CheckpointCount>, child: Option<ChildEvidence>, waiters: Option<Waiters>,
                               admission: Option<Admission>)

  const NO_EVIDENCE: Evidence := Evidence(None, None, None, None)

  datatype Needed = Checkpoints | ChildOf(taskId: string) | WaitersOf(eventName: string) | Admissions

  /** The evidence holds what was asked for. */
  predicate Holds(evidence: Evidence, needed: Needed) {
    match needed
    case Checkpoints => evidence.checkpoints.Some?
    case ChildOf(_) => evidence.child.Some?
    case WaitersOf(_) => evidence.waiters.Some?
    case Admissions => evidence.admission.Some?
  }

  predicate Supplied(evidence: Evidence) {
    evidence.checkpoints.Some? && evidence.child.Some? && evidence.waiters.Some? && evidence.admission.Some?
  }

  /** What one condition says. */
  datatype Said = Found(cause: Cause, at: Option<int>) | Needs(needed: Needed) | Declines

  datatype View = View(facts: TaskFacts, evidence: Evidence, live: seq<RunFacts>)

  predicate IsPast(view: View, at: Option<int>) {
    at.Some? && view.facts.now.Some? && at.value <= view.facts.now.value
  }

  predicate IsAhead(view: View, at: Option<int>) {
    at.Some? && view.facts.now.Some? && at.value > view.facts.now.value
  }

  function When(condition: bool, cause: Cause, at: Option<int>): Said {
    if condition then Found(cause, at) else Declines
  }

  /** The newest claim of the run is one a worker has activated. */
  predicate Activated(run: RunFacts) {
    run.claimGen.Some? && run.claimGen.value > 0 && run.activatedGen == run.claimGen
  }

  predicate InsertedAsleep(run: RunFacts) {
    run.state == "sleeping" && run.claimGen == Some(0)
  }

  predicate OnABareTimer(run: RunFacts) {
    run.state == "sleeping" && run.wakeEvent.None? && run.availableAt.Some? && Activated(run)
  }

  /** The waits that match the wake the run names. */
  function Matching(waits: seq<WaitFacts>, run: RunFacts): seq<WaitFacts> {
    if waits == [] then []
    else if waits[0].runId == run.runId && Some(waits[0].eventName) == run.wakeEvent
            && (run.wakeStep.None? || Some(waits[0].stepName) == run.wakeStep)
            && waits[0].status == "waiting" && waits[0].timeoutAt == run.availableAt
    then [waits[0]] + Matching(waits[1..], run)
    else Matching(waits[1..], run)
  }

  lemma {:induction false} MatchingWaits(waits: seq<WaitFacts>, run: RunFacts)
    ensures forall wait :: wait in Matching(waits, run) ==> wait.timeoutAt == run.availableAt && wait in waits
  {
    if waits != [] { MatchingWaits(waits[1..], run); }
  }

  /** The one wait a sleeping run is parked on. */
  function RegisteredWait(view: View, run: RunFacts): Option<WaitFacts> {
    if run.state != "sleeping" || run.wakeEvent.None? || !Activated(run) then None
    else
      var matching := Matching(view.facts.waits, run);
      if |matching| == 1 then Some(matching[0]) else None
  }

  predicate StillWaiting(view: View, run: RunFacts) {
    exists wait :: wait in view.facts.waits && wait.runId == run.runId && wait.status == "waiting"
  }

  function TaskIdOfDoneEvent(eventName: string): Option<string> {
    if |TASK_DONE_PREFIX| <= |eventName| && eventName[..|TASK_DONE_PREFIX|] == TASK_DONE_PREFIX
    then Some(eventName[|TASK_DONE_PREFIX|..]) else None
  }

  function FirstEvent(events: seq<EventFacts>, eventName: string): Option<EventFacts> {
    if events == [] then None
    else if events[0].eventName == eventName then Some(events[0])
    else FirstEvent(events[1..], eventName)
  }

  /** The task whose completion the run sleeps for. */
  function AwaitedBy(view: View, run: RunFacts): Option<string> {
    var wait := RegisteredWait(view, run);
    if wait.None? then None else TaskIdOfDoneEvent(wait.value.eventName)
  }

  /** The task whose completion the task's one live run sleeps for. */
  function AwaitedTask(facts: TaskFacts): Option<string> {
    var live := LiveRuns(facts.runs);
    if |live| == 1 then AwaitedBy(View(facts, NO_EVIDENCE, live), live[0]) else None
  }

  // ------------------------------------------------------------------------------------------
  // The conditions.

  /** A move the engine does not take. */
  function NotTaken(view: View, cause: Cause, owed: Option<int>, taken: Admission -> bool): Said {
    if !IsPast(view, owed) then Declines
    else if view.evidence.admission.None? then Needs(Admissions)
    else if view.evidence.admission.value.Moved? || taken(view.evidence.admission.value) then Declines
    else Found(cause, None)
  }

  /** An await's answer, once the list of its event's waiters is read. */
  function WithWaiters(view: View, wait: WaitFacts, found: Said): Said {
    if view.evidence.waiters.None? then Needs(WaitersOf(wait.eventName))
    else if view.evidence.waiters.value.corrupt > 0 then Found(UnreadableFacts, None)
    else found
  }

  function FirstPassMs(view: View, run: RunFacts): Option<int> {
    if run.claimGen != Some(1) || !Activated(run) || run.startedAt.None? || view.facts.now.None? then None
    else Some(view.facts.now.value - run.startedAt.value)
  }

  /** What a condition of the task's one live run says. */
  function OfTheRun(view: View, run: RunFacts, cause: Cause): Said {
    var task := view.facts.task;
    match cause
    case TaskAndRunStatesDiffer => When(run.state != task.state, cause, None)
    case DeadlineNoSweepCancels => NotTaken(view, cause, task.cancelAt, (a: Admission) => a.Admission? && a.sweepCancels)
    case CancellationDeadlinePassed => When(IsPast(view, task.cancelAt), cause, task.cancelAt)
    case LapsedLeaseNoSweepReclaims =>
      NotTaken(view, cause, if run.state == "running" then run.claimExpiresAt else None,
               (a: Admission) => a.Admission? && a.sweepReclaims)
    case LeaseLapsedUnswept =>
      When(run.state == "running" && IsPast(view, run.claimExpiresAt), cause, run.claimExpiresAt)
    case RunningPastTheHungBound =>
      When(run.state == "running" && IsAhead(view, run.claimExpiresAt) && FirstPassMs(view, run).Some?
           && FirstPassMs(view, run).value > HUNG_RUN_MS, cause, None)
    case RunningUnderALiveLease => When(run.state == "running" && IsAhead(view, run.claimExpiresAt), cause, None)
    case PendingDelayed => When(run.state == "pending" && IsAhead(view, run.availableAt), cause, run.availableAt)
    case DueRunNoClaimAdmits =>
      NotTaken(view, cause, if run.state == "pending" || run.state == "sleeping" then run.availableAt else None,
               (a: Admission) => a.Admission? && a.claimTakes)
    case WokenUnclaimed =>
      When(run.state == "pending" && IsPast(view, run.availableAt) && run.wakeEvent.Some?, cause, run.availableAt)
    case PendingDueUnclaimed =>
      When(run.state == "pending" && IsPast(view, run.availableAt) && run.wakeEvent.None?, cause, run.availableAt)
    case BackingOff => When(InsertedAsleep(run) && IsAhead(view, run.availableAt), cause, run.availableAt)
    case NeverStarted =>
      When(run.state == "sleeping" && run.availableAt.Some? && run.claimGen.Some? && run.activatedGen.Some?
           && run.activatedGen.value < run.claimGen.value && !StillWaiting(view, run), cause, run.availableAt)
    case WaitOutlivesItsEvent =>
      var wait := RegisteredWait(view, run);
      When(wait.Some? && FirstEvent(view.facts.events, wait.value.eventName).Some?
           && FirstEvent(view.facts.events, wait.value.eventName).value.emitted, cause, None)
    case NeverStartedAlpha1Form =>
      if !OnABareTimer(run) then Declines
      else if view.evidence.checkpoints.None? then Needs(Checkpoints)
      else if view.evidence.checkpoints.value.UnreadableCheckpoints? then Found(UnreadableFacts, None)
      else When(view.evidence.checkpoints.value.count == 0, cause, run.availableAt)
    case SleepingPastItsWake =>
      When((RegisteredWait(view, run).Some? || OnABareTimer(run) || InsertedAsleep(run)) && IsPast(view, run.availableAt),
           cause, run.availableAt)
    case AwaitingAChild =>
      var wait := RegisteredWait(view, run);
      if wait.None? || AwaitedBy(view, run).None? then Declines
      else if view.evidence.child.None? then Needs(ChildOf(AwaitedBy(view, run).value))
      else WithWaiters(view, wait.value, Found(cause, wait.value.timeoutAt))
    case AwaitingATimedEvent =>
      var wait := RegisteredWait(view, run);
      if wait.Some? && IsAhead(view, wait.value.timeoutAt)
      then WithWaiters(view, wait.value, Found(cause, wait.value.timeoutAt)) else Declines
    case AwaitingAnUntimedEvent =>
      var wait := RegisteredWait(view, run);
      if wait.Some? && wait.value.timeoutAt.None? then WithWaiters(view, wait.value, Found(cause, None)) else Declines
    case SleepingOnATimer => When(OnABareTimer(run) && IsAhead(view, run.availableAt), cause, run.availableAt)
    case _ => Declines
  }

  /** What a condition of the table says. */
  function Arm(view: View, cause: Cause): Said {
    var task := view.facts.task;
    match cause
    case UnreadableFacts => When(!Readable(view.facts), cause, None)
    case TerminalTaskWithALiveRun => When(TerminalState(task.state) && |view.live| > 0, cause, None)
    case CompletedTask => When(task.state == "completed", cause, None)
    case CancelledTask => When(task.state == "cancelled", cause, None)
    case FailedByAnEngineReason =>
      When(task.state == "failed" && view.facts.outcome.Result? && view.facts.outcome.engineReason.Some?, cause, None)
    case FailedAttemptsExhausted =>
      When(task.state == "failed" && task.attempts.Some? && task.maxAttempts.Some?
           && task.attempts.value >= task.maxAttempts.value, cause, None)
    case FailedWithNoRetry =>
      When(task.state == "failed" && task.attempts.Some? && task.maxAttempts.Some?
           && task.attempts.value < task.maxAttempts.value, cause, None)
    case LiveTaskWithoutOneLiveRun => When(LiveState(task.state) && |view.live| != 1, cause, None)
    case _ => if |view.live| == 1 then OfTheRun(view, view.live[0], cause) else Declines
  }

  /** What the first condition from `k` on that does not decline says. */
  function FirstFrom(view: View, k: nat): Said
    requires k <= |ORDER|
    decreases |ORDER| - k
  {
    if k == |ORDER| then Found(NoCause, None)
    else if Arm(view, ORDER[k]).Declines? then FirstFrom(view, k + 1)
    else Arm(view, ORDER[k])
  }

  // ------------------------------------------------------------------------------------------
  // Verdicts.

  function VerdictThrough(child: Option<ChildEvidence>): Verdict {
    match child
    case None => Unexplained
    case Some(Absent) => Unexplained
    case Some(NotFollowed) => Unexplained
    case Some(InARing(ring)) => if ring.endedByAClock then Waiting else Stuck
    case Some(Followed(d)) => if d.verdict != Ok then d.verdict else if d.ended then Unexplained else Waiting
  }

  function VerdictOf(rule: Rule, lateMs: Option<int>, child: Option<ChildEvidence>): Verdict {
    match rule
    case Child => VerdictThrough(child)
    case Late => if lateMs.Some? && lateMs.value > DUE_GRACE_MS then Stuck else Waiting
    case Always(verdict) => verdict
  }

  datatype Answer = Answered(diagnosis: Diagnosis) | Asks(needed: Needed)

  function ViewOf(facts: TaskFacts, evidence: Evidence): View {
    View(facts, evidence, LiveRuns(facts.runs))
  }

  function Diagnose(facts: TaskFacts, evidence: Evidence): Answer {
    match FirstFrom(ViewOf(facts, evidence), 0)
    case Needs(needed) => Asks(needed)
    case Found(cause, at) =>
      var lateMs := if at.None? || facts.now.None? then None else Some(facts.now.value - at.value);
      var rule := RuleOf(cause);
      Answered(Diagnosis(facts.task.taskId, cause, VerdictOf(rule, lateMs, evidence.child), lateMs,
                         TerminalState(facts.task.state),
                         if rule == Child then AwaitedTask(facts) else None,
                         if rule == Child && evidence.child.Some? && evidence.child.value.InARing?
                         then Some(evidence.child.value.ring) else None,
                         if rule == Child && evidence.child.Some? && evidence.child.value.Followed?
                         then Some(evidence.child.value.diagnosis) else None))
    case Declines => Answered(Diagnosis(facts.task.taskId, NoCause, Unexplained, None, false, None, None, None))
  }

  /** The last task followed. */
  function Deepest(diagnosis: Diagnosis): Diagnosis {
    if diagnosis.child.None? then diagnosis else Deepest(diagnosis.child.value)
  }
}
