/**
 * The loop that gathers evidence for a diagnosis and follows the tasks it awaits, against a
 * store that answers each read anew and may answer anything.
 */
module Explained {
  import opened Options
  import opened Explain
  import opened ExplainLaws
  import ExplainCauses
  import ExplainExact

  // ------------------------------------------------------------------------------------------
  // The read of the engine's guards.

  datatype RunAdmission = RunAdmission(runId: string, state: string, claimGen: Option<nat>, availableAt: Option<int>,
                                       claimExpiresAt: Option<int>, claimTakes: bool, sweepReclaims: bool)

  datatype TaskAdmission = TaskAdmission(now: Option<int>, state: string, cancelAt: Option<int>, runs: seq<RunAdmission>,
                                         sweepCancels: bool, corrupt: nat)

  datatype AdmissionAnswer = Guards(admission: Admission) | ClockPassed

  function RunNamed(runs: seq<RunAdmission>, runId: string): (found: Option<RunAdmission>)
    ensures found.Some? ==> found.value in runs && found.value.runId == runId
  {
    if runs == [] then None else if runs[0].runId == runId then Some(runs[0]) else RunNamed(runs[1..], runId)
  }

  /** The instant lay ahead of the facts and behind the guards. */
  predicate PassedBetween(facts: TaskFacts, read: TaskAdmission, at: Option<int>) {
    at.Some? && facts.now.Some? && read.now.Some? && facts.now.value < at.value <= read.now.value
  }

  function AdmissionOf(facts: TaskFacts, read: Option<TaskAdmission>): AdmissionAnswer {
    var live := LiveRuns(facts.runs);
    if read.None? || |live| != 1 || RunNamed(read.value.runs, live[0].runId).None? then Guards(Moved)
    else
      var now := RunNamed(read.value.runs, live[0].runId).value;
      if !SameRows(facts, read.value, live[0], now) then Guards(Moved)
      else if PassedBetween(facts, read.value, read.value.cancelAt) || PassedBetween(facts, read.value, now.availableAt)
              || PassedBetween(facts, read.value, now.claimExpiresAt)
      then ClockPassed
      else Guards(Admission.Admission(now.claimTakes, now.sweepReclaims, read.value.sweepCancels))
  }

  /** The rows the guards were read beside are the rows of the facts. */
  predicate SameRows(facts: TaskFacts, read: TaskAdmission, run: RunFacts, now: RunAdmission) {
    && read.corrupt == 0 && read.state == facts.task.state && read.cancelAt == facts.task.cancelAt
    && now.state == run.state && now.claimGen == run.claimGen && now.availableAt == run.availableAt
    && now.claimExpiresAt == run.claimExpiresAt
  }

  ghost predicate FirstNamedAt(runs: seq<RunAdmission>, runId: string, i: int) {
    0 <= i < |runs| && runs[i].runId == runId && forall j :: 0 <= j < i ==> runs[j].runId != runId
  }

  /**
   * The guards were read beside the rows of these facts: the task and its one live run are as
   * the facts hold them, field by field.
   */
  ghost predicate RowsStand(facts: TaskFacts, read: Option<TaskAdmission>, run: RunFacts, now: RunAdmission) {
    && read.Some? && ExplainCauses.OneLiveRun(facts, run)
    && (exists i :: FirstNamedAt(read.value.runs, run.runId, i) && read.value.runs[i] == now)
    && read.value.corrupt == 0 && read.value.state == facts.task.state && read.value.cancelAt == facts.task.cancelAt
    && now.state == run.state && now.claimGen == run.claimGen
    && now.availableAt == run.availableAt && now.claimExpiresAt == run.claimExpiresAt
  }

  /** The facts' clock is before the instant, and the guards' clock is not. */
  ghost predicate Between(facts: TaskFacts, read: TaskAdmission, at: Option<int>) {
    at.Some? && facts.now.Some? && read.now.Some? && facts.now.value < at.value && at.value <= read.now.value
  }

  lemma {:induction false} NamedIsFirst(runs: seq<RunAdmission>, runId: string)
    ensures RunNamed(runs, runId).None? ==> forall i :: !FirstNamedAt(runs, runId, i)
    ensures RunNamed(runs, runId).Some? ==> exists i :: FirstNamedAt(runs, runId, i)
    ensures forall i :: FirstNamedAt(runs, runId, i) ==> RunNamed(runs, runId) == Some(runs[i])
  {
    if runs != [] {
      var rest := runs[1..];
      NamedIsFirst(rest, runId);
      assert forall i :: 0 < i < |runs| ==> runs[i] == rest[i - 1];
      if runs[0].runId == runId {
        assert FirstNamedAt(runs, runId, 0);
      } else {
        if RunNamed(rest, runId).Some? {
          var i :| FirstNamedAt(rest, runId, i);
          assert FirstNamedAt(runs, runId, i + 1);
        }
        forall i | FirstNamedAt(runs, runId, i) ensures RunNamed(runs, runId) == Some(runs[i]) {
          assert FirstNamedAt(rest, runId, i - 1);
        }
      }
    }
  }

  /**
   * The guards' answer, exactly. It is that the rows moved unless they stand, that a clock passed
   * when they stand and an instant of theirs lies between the two reads, and what the guards say
   * of these very rows otherwise.
   */
  lemma AdmissionIsExact(facts: TaskFacts, read: Option<TaskAdmission>)
    ensures AdmissionOf(facts, read) == Guards(Moved) <==> forall run, now :: !RowsStand(facts, read, run, now)
    ensures forall run, now :: RowsStand(facts, read, run, now) ==>
      AdmissionOf(facts, read) ==
        if Between(facts, read.value, facts.task.cancelAt) || Between(facts, read.value, run.availableAt)
           || Between(facts, read.value, run.claimExpiresAt)
        then ClockPassed
        else Guards(Admission.Admission(now.claimTakes, now.sweepReclaims, read.value.sweepCancels))
  {
    hide LiveRuns, ExplainCauses.OneLiveRun, RunNamed;
    var live := LiveRuns(facts.runs);
    ExplainExact.LiveIsOne(facts);
    if read.Some? && |live| == 1 {
      assert live == [live[0]];
      NamedIsFirst(read.value.runs, live[0].runId);
      if AdmissionOf(facts, read) != Guards(Moved) {
        var i :| FirstNamedAt(read.value.runs, live[0].runId, i);
        assert RowsStand(facts, read, live[0], read.value.runs[i]);
      }
    }
  }

  // ------------------------------------------------------------------------------------------
  // Rings.

  datatype TaskOnTheWay = TaskOnTheWay(taskId: string, endsByAClock: bool)

  predicate AnyDue(runs: seq<RunFacts>) {
    exists run :: run in runs && LiveState(run.state) && run.availableAt.Some?
  }

  /** The task has a deadline, or a live run with an instant it comes due at. */
  predicate EndsByAClock(facts: TaskFacts): (ends: bool)
    ensures ends <==>
      facts.task.cancelAt != None
      || exists i :: 0 <= i < |facts.runs| && facts.runs[i].availableAt != None
           && (facts.runs[i].state == "pending" || facts.runs[i].state == "running" || facts.runs[i].state == "sleeping")
  {
    assert forall i :: 0 <= i < |facts.runs| ==> facts.runs[i] in facts.runs;
    facts.task.cancelAt.Some? || AnyDue(facts.runs)
  }

  predicate OnPath(path: seq<TaskOnTheWay>, taskId: string) {
    exists one :: one in path && one.taskId == taskId
  }

  predicate NoClockFrom(path: seq<TaskOnTheWay>, k: nat)
    requires k <= |path|
  {
    forall one :: one in path[k..] ==> !one.endsByAClock
  }

  /** The awaited task, where it first stands on the path. */
  predicate FirstOnPath(path: seq<TaskOnTheWay>, taskId: string, k: int) {
    0 <= k < |path| && path[k].taskId == taskId && forall j :: 0 <= j < k ==> path[j].taskId != taskId
  }

  /**
   * The ring an await closes, from the awaited task on: none exactly when that task is not on the
   * path, and ended by a clock exactly when some task of the ring is.
   */
  function RingClosedBy(path: seq<TaskOnTheWay>, childTaskId: string): (ring: Option<Ring>)
    ensures ring.Some? <==> OnPath(path, childTaskId)
    ensures ring.Some? ==>
      exists k :: FirstOnPath(path, childTaskId, k) && (ring.value.endedByAClock <==> !NoClockFrom(path, k))
  {
    if path == [] then None
    else if path[0].taskId == childTaskId then
      assert path[0] in path && path[0..] == path;
      assert FirstOnPath(path, childTaskId, 0);
      Some(Ring(exists one :: one in path && one.endsByAClock))
    else
      var ring := RingClosedBy(path[1..], childTaskId);
      assert path == [path[0]] + path[1..];
      assert ring.Some? ==>
        exists k :: FirstOnPath(path, childTaskId, k) && (ring.value.endedByAClock <==> !NoClockFrom(path, k)) by {
        if ring.Some? {
          var k :| FirstOnPath(path[1..], childTaskId, k) && (ring.value.endedByAClock <==> !NoClockFrom(path[1..], k));
          assert path[k + 1..] == path[1..][k..];
          assert FirstOnPath(path, childTaskId, k + 1);
        }
      }
      ring
  }

  // ------------------------------------------------------------------------------------------
  // What was read.

  /** What a store answers to the n-th read, whatever it held before. */
  datatype Store = Store(facts: (nat, string) -> Option<TaskFacts>, checkpoints: (nat, string) -> CheckpointCount,
                         waiters: (nat, string) -> Waiters, admission: (nat, string) -> Option<TaskAdmission>)

  /** One read that the loop made, and what the store answered. */
  datatype Read =
    | FactsRead(taskId: string, answer: Option<TaskFacts>)
    | CheckpointsRead(taskId: string, count: CheckpointCount)
    | WaitersRead(eventName: string, waiters: Waiters)
    | GuardsRead(taskId: string, guards: Option<TaskAdmission>)

  predicate AnsweredAt(store: Store, read: Read, tick: nat) {
    match read
    case FactsRead(taskId, answer) => answer == store.facts(tick, taskId)
    case CheckpointsRead(taskId, count) => count == store.checkpoints(tick, taskId)
    case WaitersRead(eventName, waiters) => waiters == store.waiters(tick, eventName)
    case GuardsRead(taskId, guards) => guards == store.admission(tick, taskId)
  }

  /** The reads were made one after another from this tick on, and the store answered them. */
  ghost predicate ReadFrom(store: Store, log: seq<Read>, tick: nat) {
    forall i :: 0 <= i < |log| ==> AnsweredAt(store, log[i], tick + i)
  }

  /** How many of the reads are of facts. */
  function FactReads(log: seq<Read>): nat {
    if log == [] then 0 else FactReads(log[..|log| - 1]) + if log[|log| - 1].FactsRead? then 1 else 0
  }

  lemma {:induction false} FactReadsAdd(log: seq<Read>, rest: seq<Read>)
    ensures FactReads(log + rest) == FactReads(log) + FactReads(rest)
    decreases |rest|
  {
    if rest == [] {
      assert log + rest == log;
    } else {
      assert (log + rest)[..|log + rest| - 1] == log + rest[..|rest| - 1];
      FactReadsAdd(log, rest[..|rest| - 1]);
    }
  }

  /** This is the last read of the task's facts. */
  ghost predicate IsLastRead(log: seq<Read>, taskId: string, k: int) {
    && 0 <= k < |log| && log[k].FactsRead? && log[k].taskId == taskId
    && forall j :: k < j < |log| ==> !(log[j].FactsRead? && log[j].taskId == taskId)
  }

  /** The facts of this task were read before the k-th read. */
  ghost predicate ReadBefore(log: seq<Read>, taskId: string, k: int) {
    exists j :: 0 <= j < k <= |log| && log[j].FactsRead? && log[j].taskId == taskId
  }

  /**
   * The evidence was read after the facts it is evidence for: the checkpoints of the task, the
   * waiters of the event its run names, and the guards of the task, whose answer it is. A passed
   * clock is taken for a moved row only of facts that were read again.
   */
  ghost predicate EvidenceIsRead(log: seq<Read>, k: int, again: bool, evidence: Evidence)
    requires 0 <= k < |log| && log[k].FactsRead? && log[k].answer.Some?
  {
    var facts, taskId := log[k].answer.value, log[k].taskId;
    && (evidence.checkpoints.Some? ==>
          exists j :: k < j < |log| && log[j] == CheckpointsRead(taskId, evidence.checkpoints.value))
    && (evidence.waiters.Some? ==>
          exists j :: k < j < |log| && log[j].WaitersRead? && log[j].waiters == evidence.waiters.value
                      && NamesEvent(facts, log[j].eventName))
    && (evidence.admission.Some? ==>
          exists j :: k < j < |log| && log[j].GuardsRead? && log[j].taskId == taskId
                      && match AdmissionOf(facts, log[j].guards)
                         case Guards(admission) => evidence.admission.value == admission
                         case ClockPassed => evidence.admission.value == Moved && (again || ReadBefore(log, taskId, k)))
  }

  /** The one live run waits on this event. */
  ghost predicate NamesEvent(facts: TaskFacts, eventName: string) {
    exists run :: ExplainCauses.OneLiveRun(facts, run) && run.wakeEvent == Some(eventName)
  }

  /** The diagnosis is one `Diagnose` answered over the facts of this read and evidence read after it. */
  ghost predicate MadeOf(log: seq<Read>, k: int, again: bool, diagnosis: Diagnosis) {
    && 0 <= k < |log| && log[k].FactsRead? && log[k].answer.Some?
    && exists evidence :: Diagnose(log[k].answer.value, evidence) == Answered(diagnosis) && EvidenceIsRead(log, k, again, evidence)
  }

  /** The way with this task at its end. */
  function Onward(onTheWay: seq<TaskOnTheWay>, taskId: string, facts: TaskFacts): seq<TaskOnTheWay> {
    onTheWay + [TaskOnTheWay(taskId, EndsByAClock(facts))]
  }

  /**
   * How the awaited task is accounted for, `path` being the way with the task that awaits it. A
   * ring is reported exactly when the awaited task is on the path. Any other is followed, unless
   * the path is nine tasks long already, or the last read of the awaited task's facts found none.
   */
  ghost predicate Accounts(log: seq<Read>, path: seq<TaskOnTheWay>, awaited: string, diagnosis: Diagnosis) {
    && (diagnosis.ring.Some? <==> OnPath(path, awaited))
    && (diagnosis.ring.Some? ==> diagnosis.ring == RingClosedBy(path, awaited))
    && (diagnosis.ring.None? && diagnosis.child.None? ==>
          |path| == 9 || exists j :: IsLastRead(log, awaited, j) && log[j].answer.None?)
  }

  /**
   * Where a diagnosis comes from. It is made of the last facts the loop read of the task it was
   * asked of, which is not already on the way, and of evidence read after them. A task it awaits
   * is accounted for, and the diagnosis below it comes so of that task.
   */
  ghost predicate Sourced(log: seq<Read>, onTheWay: seq<TaskOnTheWay>, taskId: string, again: bool, diagnosis: Diagnosis)
    decreases diagnosis
  {
    && !OnPath(onTheWay, taskId)
    && exists k :: IsLastRead(log, taskId, k) && MadeOf(log, k, again, diagnosis)
         && (diagnosis.cause == AwaitingAChild ==>
               diagnosis.awaits.Some?
               && Accounts(log, Onward(onTheWay, taskId, log[k].answer.value), diagnosis.awaits.value, diagnosis))
         && (diagnosis.child.Some? ==>
               diagnosis.awaits.Some?
               && Sourced(log, Onward(onTheWay, taskId, log[k].answer.value), diagnosis.awaits.value, false,
                          diagnosis.child.value))
  }

  /** How many tasks the chain of a diagnosis names. */
  function Depth(diagnosis: Diagnosis): (depth: nat)
    ensures depth > 0
  {
    1 + if diagnosis.child.None? then 0 else Depth(diagnosis.child.value)
  }

  /** No read is of the facts of a task on the path. */
  ghost predicate OffPath(log: seq<Read>, path: seq<TaskOnTheWay>) {
    forall i :: 0 <= i < |log| && log[i].FactsRead? ==> !OnPath(path, log[i].taskId)
  }

  // ------------------------------------------------------------------------------------------
  // The loop.

  datatype Explanation = Explanation(facts: TaskFacts, diagnosis: Diagnosis)

  function Missing(evidence: Evidence): nat {
    (if evidence.checkpoints.None? then 1 else 0) + (if evidence.child.None? then 1 else 0)
    + (if evidence.waiters.None? then 1 else 0) + (if evidence.admission.None? then 1 else 0)
  }

  /** At most this many reads of facts happen from a hop on. */
  function MostReads(hop: nat, factsReadAgain: bool): nat
    requires hop <= CHILD_HOPS
  {
    2 * (CHILD_HOPS - hop) + if factsReadAgain then 1 else 2
  }

  /** What the loop answers of a task: nothing exactly when the last read of its facts found none. */
  ghost predicate Answers(log: seq<Read>, onTheWay: seq<TaskOnTheWay>, taskId: string, again: bool, answer: Option<Explanation>) {
    && (exists k :: IsLastRead(log, taskId, k)
          && log[k].answer == if answer.None? then None else Some(answer.value.facts))
    && (answer.Some? ==>
          && Sourced(log, onTheWay, taskId, again, answer.value.diagnosis)
          && Depth(answer.value.diagnosis) + |onTheWay| <= CHILD_HOPS + 1)
  }

  /**
   * One task's diagnosis. It ends whatever the store answers, asks for no evidence twice,
   * follows no task already on the way, goes at most CHILD_HOPS awaits deep, and reads facts
   * at most twice for each hop. Every diagnosis of its chain is made of facts it read, and
   * every await of a child it met is followed, closes a ring, or is one it could not follow.
   */
  method Gather(store: Store, tick: nat, taskId: string, onTheWay: seq<TaskOnTheWay>, factsReadAgain: bool)
    returns (answer: Option<Explanation>, factReads: nat, next: nat, ghost log: seq<Read>)
    requires |onTheWay| <= CHILD_HOPS && !OnPath(onTheWay, taskId) && Distinct(onTheWay)
    ensures ReadFrom(store, log, tick) && next == tick + |log| && OffPath(log, onTheWay)
    ensures factReads == FactReads(log) <= MostReads(|onTheWay|, factsReadAgain)
    ensures Answers(log, onTheWay, taskId, factsReadAgain, answer)
    ensures answer.Some? && answer.value.diagnosis.verdict == Stuck ==>
      StuckFor(log, onTheWay, factsReadAgain, answer.value.diagnosis)
    decreases CHILD_HOPS - |onTheWay|, if factsReadAgain then 1 else 2
  {
    hide EndsByAClock, Diagnose, Sourced, PastTheGuards, SourcedChild, AdmissionOf, OnPath, ReadFrom, AwaitedTask, Depth,
         Distinct, StuckFor, EvidenceIsRead, OffPath, FactReads, Answers, Onward, IsLastRead;
    var facts := store.facts(tick, taskId);
    factReads, next, log := 1, tick + 1, [FactsRead(taskId, facts)];
    FirstRead(store, log, tick, taskId, onTheWay);
    if facts.None? {
      NobodyThere(log, onTheWay, taskId, factsReadAgain);
      return None, factReads, next, log;
    }
    var path := Onward(onTheWay, taskId, facts.value);
    PathGrows(onTheWay, taskId, facts.value);
    var evidence := NO_EVIDENCE;
    NothingRead(log, factsReadAgain);
    while true
      invariant factReads == FactReads(log) <= 1 + if evidence.child.Some? then 2 * (CHILD_HOPS - |onTheWay|) else 0
      invariant ReadFrom(store, log, tick) && next == tick + |log| && OffPath(log, onTheWay)
      invariant log != [] && log[0] == FactsRead(taskId, facts) && IsLastRead(log, taskId, 0)
      invariant EvidenceIsRead(log, 0, factsReadAgain, evidence)
      invariant evidence.child.Some? ==> PastTheGuards(facts.value, evidence) && AwaitedTask(facts.value).Some?
      invariant evidence.child.Some? ==> SourcedChild(log, path, AwaitedTask(facts.value).value, evidence.child.value)
      decreases Missing(evidence)
    {
      var asked := Diagnose(facts.value, evidence);
      if asked.Answered? {
        AnswerIsSourced(log, onTheWay, taskId, factsReadAgain, evidence, asked.diagnosis);
        return Some(Explanation(facts.value, asked.diagnosis)), factReads, next, log;
      }
      AsksForWhatIsMissing(facts.value, evidence);
      if evidence.child.Some? { NoGuardIsAskedPastThem(facts.value, evidence); }
      ghost var before, had := log, evidence;
      match asked.needed
      case Checkpoints =>
        var count := store.checkpoints(next, taskId);
        next := next + 1;
        log := log + [CheckpointsRead(taskId, count)];
        evidence := evidence.(checkpoints := Some(count));
        CheckpointsAreRead(before, factsReadAgain, had, count);
        OtherRead(store, before, log, tick, onTheWay, path, facts.value, had);
      case WaitersOf(eventName) =>
        var waiters := store.waiters(next, eventName);
        next := next + 1;
        log := log + [WaitersRead(eventName, waiters)];
        evidence := evidence.(waiters := Some(waiters));
        WaitersAreRead(before, factsReadAgain, had, eventName, waiters);
        OtherRead(store, before, log, tick, onTheWay, path, facts.value, had);
        if evidence.child.Some? { GuardsIgnoreTheChild(facts.value, had, evidence.child, evidence.waiters); }
      case Admissions =>
        var read := store.admission(next, taskId);
        next := next + 1;
        var guards := AdmissionOf(facts.value, read);
        log := log + [GuardsRead(taskId, read)];
        OtherRead(store, before, log, tick, onTheWay, path, facts.value, had);
        if guards.ClockPassed? && !factsReadAgain {
          ghost var first, rest := log, [];
          var more;
          answer, more, next, rest := Gather(store, next, taskId, onTheWay, true);
          log, factReads := first + rest, factReads + more;
          ReadAgain(store, first, rest, tick, taskId, onTheWay, answer);
          return answer, factReads, next, log;
        }
        evidence := evidence.(admission := Some(if guards.ClockPassed? then Moved else guards.admission));
        GuardsAreRead(before, factsReadAgain, had, read, evidence.admission.value);
      case ChildOf(childTaskId) =>
        AsksForTheAwaited(facts.value, evidence);
        ChildIsAskedPastTheGuards(facts.value, evidence);
        var child, more;
        ghost var rest;
        child, more, next, rest := Follow(store, next, path, childTaskId);
        log, factReads := log + rest, factReads + more;
        evidence := evidence.(child := Some(child));
        GuardsIgnoreTheChild(facts.value, had, Some(child), evidence.waiters);
        ChildIsRead(store, before, rest, tick, taskId, onTheWay, facts.value, factsReadAgain, had, child);
    }
  }

  /** What following an awaited task finds: a ring, a hop not taken, nobody, or its diagnosis. */
  method Follow(store: Store, tick: nat, path: seq<TaskOnTheWay>, childTaskId: string)
    returns (child: ChildEvidence, factReads: nat, next: nat, ghost log: seq<Read>)
    requires 0 < |path| <= CHILD_HOPS + 1 && Distinct(path)
    ensures ReadFrom(store, log, tick) && next == tick + |log| && OffPath(log, path)
    ensures factReads == FactReads(log) <= 2 * (CHILD_HOPS + 1 - |path|)
    ensures SourcedChild(log, path, childTaskId, child)
    decreases CHILD_HOPS + 1 - |path|, 0
  {
    hide Sourced, ReadFrom, OffPath, FactReads, Answers, Distinct, StuckFor, OnPath;
    var ring := RingClosedBy(path, childTaskId);
    factReads, next, log := 0, tick, [];
    NoReads(store, tick, path);
    if ring.Some? {
      child := InARing(ring.value);
    } else if |path| == CHILD_HOPS + 1 {
      child := NotFollowed;
    } else {
      var followed;
      followed, factReads, next, log := Gather(store, tick, childTaskId, path, false);
      child := if followed.Some? then Followed(followed.value.diagnosis) else Absent;
      FollowedIsSourced(log, path, childTaskId, followed, child);
    }
  }

  // ------------------------------------------------------------------------------------------
  // Where a diagnosis comes from.

  ghost predicate SourcedChild(log: seq<Read>, path: seq<TaskOnTheWay>, childTaskId: string, child: ChildEvidence) {
    && (child.InARing? <==> OnPath(path, childTaskId))
    && match child
       case Followed(d) => Sourced(log, path, childTaskId, false, d) && Depth(d) + |path| <= CHILD_HOPS + 1
       case InARing(ring) => RingClosedBy(path, childTaskId) == Some(ring)
       case NotFollowed => |path| == 9
       case Absent => exists k :: IsLastRead(log, childTaskId, k) && log[k].answer.None?
  }

  lemma NoReads(store: Store, tick: nat, path: seq<TaskOnTheWay>)
    ensures ReadFrom(store, [], tick) && OffPath([], path) && FactReads([]) == 0
  {
  }

  lemma FirstRead(store: Store, log: seq<Read>, tick: nat, taskId: string, onTheWay: seq<TaskOnTheWay>)
    requires log == [FactsRead(taskId, store.facts(tick, taskId))] && !OnPath(onTheWay, taskId)
    ensures ReadFrom(store, log, tick) && OffPath(log, onTheWay) && IsLastRead(log, taskId, 0) && FactReads(log) == 1
  {
    assert log[..0] == [];
  }

  lemma NobodyThere(log: seq<Read>, onTheWay: seq<TaskOnTheWay>, taskId: string, again: bool)
    requires IsLastRead(log, taskId, 0) && log[0].answer.None?
    ensures Answers(log, onTheWay, taskId, again, None)
  {
  }

  lemma NothingRead(log: seq<Read>, again: bool)
    requires log != [] && log[0].FactsRead? && log[0].answer.Some?
    ensures EvidenceIsRead(log, 0, again, NO_EVIDENCE)
  {
  }

  /** More reads take nothing from what was read. */
  lemma EvidenceStays(log: seq<Read>, rest: seq<Read>, k: int, again: bool, evidence: Evidence)
    requires 0 <= k < |log| && log[k].FactsRead? && log[k].answer.Some? && EvidenceIsRead(log, k, again, evidence)
    ensures EvidenceIsRead(log + rest, k, again, evidence)
  {
    hide AdmissionOf, NamesEvent;
    assert forall j :: 0 <= j < |log| ==> (log + rest)[j] == log[j];
    BeforeStays(log, rest, log[k].taskId, k);
  }

  lemma BeforeStays(log: seq<Read>, rest: seq<Read>, taskId: string, k: int)
    requires k < |log|
    ensures ReadBefore(log, taskId, k) ==> ReadBefore(log + rest, taskId, k)
  {
    if ReadBefore(log, taskId, k) {
      var j :| 0 <= j < k <= |log| && log[j].FactsRead? && log[j].taskId == taskId;
      assert (log + rest)[j] == log[j];
    }
  }

  lemma CheckpointsAreRead(log: seq<Read>, again: bool, evidence: Evidence, count: CheckpointCount)
    requires log != [] && log[0].FactsRead? && log[0].answer.Some? && EvidenceIsRead(log, 0, again, evidence)
    ensures EvidenceIsRead(log + [CheckpointsRead(log[0].taskId, count)], 0, again, evidence.(checkpoints := Some(count)))
  {
    hide AdmissionOf, NamesEvent;
    var read := CheckpointsRead(log[0].taskId, count);
    EvidenceStays(log, [read], 0, again, evidence);
    assert (log + [read])[|log|] == read;
  }

  lemma WaitersAreRead(log: seq<Read>, again: bool, evidence: Evidence, eventName: string, waiters: Waiters)
    requires log != [] && log[0].FactsRead? && log[0].answer.Some? && EvidenceIsRead(log, 0, again, evidence)
    requires Diagnose(log[0].answer.value, evidence) == Asks(WaitersOf(eventName))
    ensures EvidenceIsRead(log + [WaitersRead(eventName, waiters)], 0, again, evidence.(waiters := Some(waiters)))
  {
    hide AdmissionOf, NamesEvent, Diagnose;
    var read := WaitersRead(eventName, waiters);
    EvidenceStays(log, [read], 0, again, evidence);
    AsksForTheNamed(log[0].answer.value, evidence, eventName);
    assert (log + [read])[|log|] == read;
  }

  /** The waiters asked for are those of the event the run names. */
  lemma AsksForTheNamed(facts: TaskFacts, evidence: Evidence, eventName: string)
    requires Diagnose(facts, evidence) == Asks(WaitersOf(eventName))
    ensures NamesEvent(facts, eventName)
  {
    hide Diagnose, ExplainCauses.OneLiveRun, ExplainCauses.Legible, ExplainCauses.Emitted, ExplainCauses.OfAChild;
    ExplainExact.CauseIsExact(facts, evidence);
    assert ExplainCauses.AsksFor(facts, evidence, WaitersOf(eventName));
    var run, wait :| ExplainCauses.Awaits(facts, evidence, run, wait) && wait.eventName == eventName;
    assert ExplainCauses.OneLiveRun(facts, run) && ExplainCauses.IsItsWait(run, wait);
  }

  lemma GuardsAreRead(log: seq<Read>, again: bool, evidence: Evidence, read: Option<TaskAdmission>, admission: Admission)
    requires log != [] && log[0].FactsRead? && log[0].answer.Some? && EvidenceIsRead(log, 0, again, evidence)
    requires match AdmissionOf(log[0].answer.value, read) case Guards(a) => admission == a case ClockPassed => admission == Moved && again
    ensures EvidenceIsRead(log + [GuardsRead(log[0].taskId, read)], 0, again, evidence.(admission := Some(admission)))
  {
    hide AdmissionOf, NamesEvent;
    var made := GuardsRead(log[0].taskId, read);
    EvidenceStays(log, [made], 0, again, evidence);
    assert (log + [made])[|log|] == made;
  }

  /** A read of no facts leaves the last read of each task's facts where it was. */
  lemma LastStays(before: seq<Read>, log: seq<Read>, after: seq<Read>, taskId: string, k: int)
    requires IsLastRead(log, taskId, k) && forall i :: 0 <= i < |after| ==> !after[i].FactsRead?
    ensures IsLastRead(before + log + after, taskId, k + |before|)
    ensures (before + log + after)[k + |before|] == log[k]
  {
  }

  lemma MadeStays(before: seq<Read>, log: seq<Read>, after: seq<Read>, k: int, again: bool, still: bool, d: Diagnosis)
    requires MadeOf(log, k, again, d) && (again ==> still || ReadBefore(before + log + after, log[k].taskId, k + |before|))
    ensures MadeOf(before + log + after, k + |before|, still, d)
  {
    hide Diagnose, AdmissionOf, EvidenceIsRead;
    var all, at := before + log + after, k + |before|;
    assert all[at] == log[k];
    var evidence :| Diagnose(log[k].answer.value, evidence) == Answered(d) && EvidenceIsRead(log, k, again, evidence);
    EvidenceShifts(before, log, after, k, again, still, evidence);
  }

  lemma EvidenceShifts(before: seq<Read>, log: seq<Read>, after: seq<Read>, k: int, again: bool, still: bool, evidence: Evidence)
    requires 0 <= k < |log| && log[k].FactsRead? && log[k].answer.Some? && EvidenceIsRead(log, k, again, evidence)
    requires again ==> still || ReadBefore(before + log + after, log[k].taskId, k + |before|)
    ensures EvidenceIsRead(before + log + after, k + |before|, still, evidence)
  {
    hide AdmissionOf, NamesEvent;
    var all, at := before + log + after, k + |before|;
    assert all[at] == log[k];
    assert forall j :: 0 <= j < |log| ==> all[j + |before|] == log[j];
    if evidence.checkpoints.Some? {
      var j :| k < j < |log| && log[j] == CheckpointsRead(log[k].taskId, evidence.checkpoints.value);
      assert all[j + |before|] == log[j];
    }
    if evidence.waiters.Some? {
      var j :| k < j < |log| && log[j].WaitersRead? && log[j].waiters == evidence.waiters.value
               && NamesEvent(log[k].answer.value, log[j].eventName);
      assert all[j + |before|] == log[j];
    }
    if evidence.admission.Some? {
      GuardsShift(before, log, after, k, again, still, evidence.admission.value);
    }
  }

  ghost predicate GuardsSay(log: seq<Read>, k: int, again: bool, admission: Admission)
    requires 0 <= k < |log| && log[k].FactsRead? && log[k].answer.Some?
  {
    exists j :: k < j < |log| && log[j].GuardsRead? && log[j].taskId == log[k].taskId
                && match AdmissionOf(log[k].answer.value, log[j].guards)
                   case Guards(said) => admission == said
                   case ClockPassed => admission == Moved && (again || ReadBefore(log, log[k].taskId, k))
  }

  lemma GuardsShift(before: seq<Read>, log: seq<Read>, after: seq<Read>, k: int, again: bool, still: bool, admission: Admission)
    requires 0 <= k < |log| && log[k].FactsRead? && log[k].answer.Some? && GuardsSay(log, k, again, admission)
    requires again ==> still || ReadBefore(before + log + after, log[k].taskId, k + |before|)
    ensures var all := before + log + after; all[k + |before|] == log[k] && GuardsSay(all, k + |before|, still, admission)
  {
    hide AdmissionOf;
    var all, at := before + log + after, k + |before|;
    assert all[at] == log[k];
    if ReadBefore(log, log[k].taskId, k) {
      var i :| 0 <= i < k <= |log| && log[i].FactsRead? && log[i].taskId == log[k].taskId;
      assert all[i + |before|] == log[i];
      assert ReadBefore(all, log[k].taskId, at);
    }
    var j :| k < j < |log| && log[j].GuardsRead? && log[j].taskId == log[k].taskId
             && match AdmissionOf(log[k].answer.value, log[j].guards)
                case Guards(said) => admission == said
                case ClockPassed => admission == Moved && (again || ReadBefore(log, log[k].taskId, k));
    assert all[j + |before|] == log[j];
  }

  lemma AccountsStay(before: seq<Read>, log: seq<Read>, after: seq<Read>, path: seq<TaskOnTheWay>, awaited: string, d: Diagnosis)
    requires Accounts(log, path, awaited, d) && forall i :: 0 <= i < |after| ==> !after[i].FactsRead?
    ensures Accounts(before + log + after, path, awaited, d)
  {
    if d.ring.None? && d.child.None? && |path| != 9 {
      var j :| IsLastRead(log, awaited, j) && log[j].answer.None?;
      LastStays(before, log, after, awaited, j);
    }
  }

  /** The read a sourced diagnosis was made of. */
  lemma SourceOf(log: seq<Read>, onTheWay: seq<TaskOnTheWay>, taskId: string, again: bool, d: Diagnosis) returns (k: int)
    requires Sourced(log, onTheWay, taskId, again, d)
    ensures IsLastRead(log, taskId, k) && MadeOf(log, k, again, d) && !OnPath(onTheWay, taskId)
    ensures d.cause == AwaitingAChild ==>
      d.awaits.Some? && Accounts(log, Onward(onTheWay, taskId, log[k].answer.value), d.awaits.value, d)
    ensures d.child.Some? ==>
      d.awaits.Some?
      && Sourced(log, Onward(onTheWay, taskId, log[k].answer.value), d.awaits.value, false, d.child.value)
  {
    k :| IsLastRead(log, taskId, k) && MadeOf(log, k, again, d)
      && (d.cause == AwaitingAChild ==>
            d.awaits.Some? && Accounts(log, Onward(onTheWay, taskId, log[k].answer.value), d.awaits.value, d))
      && (d.child.Some? ==>
            d.awaits.Some?
            && Sourced(log, Onward(onTheWay, taskId, log[k].answer.value), d.awaits.value, false, d.child.value));
  }

  lemma {:induction false} SourcedOfMore(before: seq<Read>, log: seq<Read>, after: seq<Read>, onTheWay: seq<TaskOnTheWay>,
                                         taskId: string, again: bool, still: bool, d: Diagnosis)
    requires Sourced(log, onTheWay, taskId, again, d) && forall i :: 0 <= i < |after| ==> !after[i].FactsRead?
    requires again && !still ==> exists i :: 0 <= i < |before| && before[i].FactsRead? && before[i].taskId == taskId
    ensures Sourced(before + log + after, onTheWay, taskId, still, d)
    decreases d
  {
    hide MadeOf, Accounts, OnPath, Onward;
    var all := before + log + after;
    var k := SourceOf(log, onTheWay, taskId, again, d);
    LastStays(before, log, after, taskId, k);
    if again && !still {
      var i :| 0 <= i < |before| && before[i].FactsRead? && before[i].taskId == taskId;
      assert all[i] == before[i];
      assert ReadBefore(all, taskId, k + |before|);
    }
    MadeIsOfFacts(log, k, again, d);
    MadeStays(before, log, after, k, again, still, d);
    var path := Onward(onTheWay, taskId, log[k].answer.value);
    if d.cause == AwaitingAChild { AccountsStay(before, log, after, path, d.awaits.value, d); }
    if d.child.Some? { SourcedOfMore(before, log, after, path, d.awaits.value, false, false, d.child.value); }
  }

  lemma MadeIsOfFacts(log: seq<Read>, k: int, again: bool, d: Diagnosis)
    requires MadeOf(log, k, again, d)
    ensures 0 <= k < |log| && log[k].FactsRead? && log[k].answer.Some?
  {
  }

  lemma ReadFromStays(store: Store, log: seq<Read>, rest: seq<Read>, tick: nat)
    requires ReadFrom(store, log, tick) && ReadFrom(store, rest, tick + |log|)
    ensures ReadFrom(store, log + rest, tick)
  {
  }

  lemma OffPathStays(log: seq<Read>, rest: seq<Read>, path: seq<TaskOnTheWay>)
    requires OffPath(log, path) && OffPath(rest, path)
    ensures OffPath(log + rest, path)
  {
    hide OnPath;
  }

  lemma ChildStays(log: seq<Read>, after: seq<Read>, path: seq<TaskOnTheWay>, childTaskId: string, child: ChildEvidence)
    requires SourcedChild(log, path, childTaskId, child) && forall i :: 0 <= i < |after| ==> !after[i].FactsRead?
    ensures SourcedChild(log + after, path, childTaskId, child)
  {
    hide OnPath, Sourced;
    assert [] + log + after == log + after;
    match child
    case Followed(d) => SourcedOfMore([], log, after, path, childTaskId, false, false, d);
    case Absent =>
      var k :| IsLastRead(log, childTaskId, k) && log[k].answer.None?;
      LastStays([], log, after, childTaskId, k);
    case _ =>
  }

  /** A read of something besides facts. */
  lemma OtherRead(store: Store, before: seq<Read>, log: seq<Read>, tick: nat, onTheWay: seq<TaskOnTheWay>,
                  path: seq<TaskOnTheWay>, facts: TaskFacts, evidence: Evidence)
    requires before != [] && before[0].FactsRead? && IsLastRead(before, before[0].taskId, 0)
    requires |log| == |before| + 1 && log[..|before|] == before && !log[|before|].FactsRead?
    requires ReadFrom(store, before, tick) && OffPath(before, onTheWay) && AnsweredAt(store, log[|before|], tick + |before|)
    requires evidence.child.Some? ==>
      AwaitedTask(facts).Some? && SourcedChild(before, path, AwaitedTask(facts).value, evidence.child.value)
    ensures ReadFrom(store, log, tick) && OffPath(log, onTheWay) && FactReads(log) == FactReads(before)
    ensures IsLastRead(log, before[0].taskId, 0)
    ensures evidence.child.Some? ==> SourcedChild(log, path, AwaitedTask(facts).value, evidence.child.value)
  {
    hide AwaitedTask, SourcedChild, OnPath, AnsweredAt;
    var read := log[|before|];
    assert log == before + [read] && [] + before + [read] == log;
    LastStays([], before, [read], before[0].taskId, 0);
    if evidence.child.Some? { ChildStays(before, [read], path, AwaitedTask(facts).value, evidence.child.value); }
  }

  lemma PathGrows(onTheWay: seq<TaskOnTheWay>, taskId: string, facts: TaskFacts)
    requires Distinct(onTheWay) && !OnPath(onTheWay, taskId)
    ensures Distinct(Onward(onTheWay, taskId, facts)) && |Onward(onTheWay, taskId, facts)| == |onTheWay| + 1
    ensures OnPath(Onward(onTheWay, taskId, facts), taskId)
    ensures forall other :: OnPath(onTheWay, other) ==> OnPath(Onward(onTheWay, taskId, facts), other)
  {
    hide EndsByAClock;
    var path := Onward(onTheWay, taskId, facts);
    assert path[|onTheWay|] in path;
    forall i | 0 <= i < |onTheWay| ensures onTheWay[i].taskId != taskId {
      assert onTheWay[i] in onTheWay;
    }
  }

  /** What following the awaited task read, after what was read before it. */
  lemma ChildIsRead(store: Store, before: seq<Read>, rest: seq<Read>, tick: nat, taskId: string, onTheWay: seq<TaskOnTheWay>,
                    facts: TaskFacts, again: bool, evidence: Evidence, child: ChildEvidence)
    requires before != [] && before[0] == FactsRead(taskId, Some(facts)) && IsLastRead(before, taskId, 0)
    requires ReadFrom(store, before, tick) && ReadFrom(store, rest, tick + |before|)
    requires OffPath(before, onTheWay) && OffPath(rest, Onward(onTheWay, taskId, facts))
    requires Distinct(onTheWay) && !OnPath(onTheWay, taskId)
    requires EvidenceIsRead(before, 0, again, evidence)
    requires AwaitedTask(facts).Some?
    requires SourcedChild(rest, Onward(onTheWay, taskId, facts), AwaitedTask(facts).value, child)
    ensures ReadFrom(store, before + rest, tick) && OffPath(before + rest, onTheWay)
    ensures FactReads(before + rest) == FactReads(before) + FactReads(rest)
    ensures IsLastRead(before + rest, taskId, 0)
    ensures EvidenceIsRead(before + rest, 0, again, evidence.(child := Some(child)))
    ensures SourcedChild(before + rest, Onward(onTheWay, taskId, facts), AwaitedTask(facts).value, child)
  {
    hide AwaitedTask, Onward, OnPath, Sourced, ReadFrom, Distinct, RingClosedBy;
    var path := Onward(onTheWay, taskId, facts);
    PathGrows(onTheWay, taskId, facts);
    FactReadsAdd(before, rest);
    ReadFromStays(store, before, rest, tick);
    OffPathStays(before, rest, onTheWay);
    EvidenceStays(before, rest, 0, again, evidence);
    assert before + rest + [] == before + rest;
    match child
    case Followed(d) => SourcedOfMore(before, rest, [], path, AwaitedTask(facts).value, false, false, d);
    case Absent =>
      var k :| IsLastRead(rest, AwaitedTask(facts).value, k) && rest[k].answer.None?;
      LastStays(before, rest, [], AwaitedTask(facts).value, k);
    case _ =>
  }

  lemma FollowedIsSourced(log: seq<Read>, path: seq<TaskOnTheWay>, childTaskId: string, followed: Option<Explanation>,
                          child: ChildEvidence)
    requires Answers(log, path, childTaskId, false, followed) && !OnPath(path, childTaskId)
    requires child == if followed.Some? then Followed(followed.value.diagnosis) else Absent
    ensures SourcedChild(log, path, childTaskId, child)
  {
    hide Sourced;
  }

  /** The facts read again, and what was answered of them. */
  lemma ReadAgain(store: Store, first: seq<Read>, rest: seq<Read>, tick: nat, taskId: string, onTheWay: seq<TaskOnTheWay>,
                  answer: Option<Explanation>)
    requires first != [] && first[0].FactsRead? && first[0].taskId == taskId && Distinct(onTheWay)
    requires ReadFrom(store, first, tick) && ReadFrom(store, rest, tick + |first|)
    requires OffPath(first, onTheWay) && OffPath(rest, onTheWay)
    requires Answers(rest, onTheWay, taskId, true, answer)
    ensures ReadFrom(store, first + rest, tick) && OffPath(first + rest, onTheWay)
    ensures FactReads(first + rest) == FactReads(first) + FactReads(rest)
    ensures Answers(first + rest, onTheWay, taskId, false, answer)
    ensures answer.Some? && answer.value.diagnosis.verdict == Stuck ==>
      StuckFor(first + rest, onTheWay, false, answer.value.diagnosis)
  {
    hide OnPath, Sourced, ReadFrom, OffPath, StuckFor;
    FactReadsAdd(first, rest);
    ReadFromStays(store, first, rest, tick);
    OffPathStays(first, rest, onTheWay);
    assert first + rest + [] == first + rest;
    var k :| IsLastRead(rest, taskId, k) && rest[k].answer == if answer.None? then None else Some(answer.value.facts);
    LastStays(first, rest, [], taskId, k);
    if answer.Some? {
      SourcedOfMore(first, rest, [], onTheWay, taskId, true, false, answer.value.diagnosis);
      if answer.value.diagnosis.verdict == Stuck {
        StuckIsARing(first + rest, onTheWay, taskId, false, answer.value.diagnosis);
      }
    }
  }

  /** An answer accounts for the awaited task by the evidence it was given. */
  lemma AnswerAccounts(log: seq<Read>, path: seq<TaskOnTheWay>, facts: TaskFacts, evidence: Evidence, d: Diagnosis)
    requires Diagnose(facts, evidence) == Answered(d) && |path| <= CHILD_HOPS + 1
    requires evidence.child.Some? ==>
      AwaitedTask(facts).Some? && SourcedChild(log, path, AwaitedTask(facts).value, evidence.child.value)
    ensures d.cause == AwaitingAChild ==> d.awaits.Some? && Accounts(log, path, d.awaits.value, d)
    ensures d.child.Some? ==>
      d.cause == AwaitingAChild && d.awaits.Some? && Sourced(log, path, d.awaits.value, false, d.child.value)
      && Depth(d.child.value) + |path| <= CHILD_HOPS + 1
  {
    hide Diagnose, AwaitedTask, Sourced, RingClosedBy, OnPath, Depth, IsLastRead;
    ExplainExact.AnswerHolds(facts, evidence, d);
    if d.cause == AwaitingAChild {
      AwaitingHasEvidence(facts, evidence, d);
      OnlySourcedIsOffPath(log, path, AwaitedTask(facts).value, evidence.child.value);
    }
  }

  lemma OnlySourcedIsOffPath(log: seq<Read>, path: seq<TaskOnTheWay>, childTaskId: string, child: ChildEvidence)
    requires SourcedChild(log, path, childTaskId, child)
    ensures child.InARing? <==> OnPath(path, childTaskId)
  {
  }

  lemma AwaitingHasEvidence(facts: TaskFacts, evidence: Evidence, d: Diagnosis)
    requires Diagnose(facts, evidence) == Answered(d) && d.cause == AwaitingAChild
    ensures evidence.child.Some? && d.awaits == AwaitedTask(facts)
  {
    ExplainExact.CauseIsExact(facts, evidence);
    assert ExplainCauses.Tells(facts, evidence, AwaitingAChild);
    hide ExplainCauses.Awaits;
  }

  lemma AnswerIsSourced(log: seq<Read>, onTheWay: seq<TaskOnTheWay>, taskId: string, again: bool, evidence: Evidence, d: Diagnosis)
    requires log != [] && log[0].FactsRead? && log[0].answer.Some? && IsLastRead(log, taskId, 0)
    requires Diagnose(log[0].answer.value, evidence) == Answered(d) && EvidenceIsRead(log, 0, again, evidence)
    requires !OnPath(onTheWay, taskId) && |onTheWay| <= CHILD_HOPS && Distinct(onTheWay)
    requires evidence.child.Some? ==>
      AwaitedTask(log[0].answer.value).Some?
      && SourcedChild(log, Onward(onTheWay, taskId, log[0].answer.value), AwaitedTask(log[0].answer.value).value,
                      evidence.child.value)
    ensures Answers(log, onTheWay, taskId, again, Some(Explanation(log[0].answer.value, d)))
    ensures d.verdict == Stuck ==> StuckFor(log, onTheWay, again, d)
  {
    hide Diagnose, RingClosedBy, AwaitedTask, EndsByAClock, SourcedChild, Accounts, EvidenceIsRead, StuckFor, Distinct, OnPath;
    var facts := log[0].answer.value;
    PathGrows(onTheWay, taskId, facts);
    AnswerAccounts(log, Onward(onTheWay, taskId, facts), facts, evidence, d);
    assert MadeOf(log, 0, again, d);
    assert Sourced(log, onTheWay, taskId, again, d);
    if d.verdict == Stuck { StuckIsARing(log, onTheWay, taskId, again, d); }
  }

  // ------------------------------------------------------------------------------------------
  // What `stuck` means.

  ghost predicate LateAtTheEnd(diagnosis: Diagnosis) {
    var last := Deepest(diagnosis);
    last.verdict == Stuck && last.child.None? && IsLate(last.cause) && last.lateMs.Some? && last.lateMs.value > 120_000
  }

  ghost predicate Distinct(path: seq<TaskOnTheWay>) {
    forall i, j :: 0 <= i < j < |path| ==> path[i].taskId != path[j].taskId
  }

  /** The tasks of a diagnosis, each with the clock of the facts its diagnosis was made of, and each awaiting the next. */
  ghost predicate IsChain(log: seq<Read>, tasks: seq<TaskOnTheWay>, again: bool, diagnosis: Diagnosis)
    decreases diagnosis
  {
    && |tasks| == Depth(diagnosis)
    && (exists k :: MadeOf(log, k, again, diagnosis) && IsLastRead(log, tasks[0].taskId, k)
          && tasks[0].endsByAClock == EndsByAClock(log[k].answer.value))
    && (diagnosis.child.Some? ==>
          diagnosis.awaits == Some(tasks[1].taskId) && IsChain(log, tasks[1..], false, diagnosis.child.value))
  }

  /**
   * A ring that no clock ends: the tasks of the diagnosis after those on the way, all different,
   * each awaiting the next and the last awaiting one of them, with no deadline and no due
   * instant from that one on.
   */
  ghost predicate IsClocklessRing(log: seq<Read>, onTheWay: seq<TaskOnTheWay>, tasks: seq<TaskOnTheWay>, again: bool,
                                  diagnosis: Diagnosis) {
    var path := onTheWay + tasks;
    && IsChain(log, tasks, again, diagnosis) && Distinct(path)
    && exists k :: 0 <= k < |path| && Deepest(diagnosis).awaits == Some(path[k].taskId) && NoClockFrom(path, k)
  }

  ghost predicate StuckFor(log: seq<Read>, onTheWay: seq<TaskOnTheWay>, again: bool, diagnosis: Diagnosis) {
    LateAtTheEnd(diagnosis) || exists tasks :: IsClocklessRing(log, onTheWay, tasks, again, diagnosis)
  }

  lemma {:induction false} SourcedIsMade(log: seq<Read>, onTheWay: seq<TaskOnTheWay>, taskId: string, again: bool, d: Diagnosis)
    requires Sourced(log, onTheWay, taskId, again, d)
    ensures Made(d)
    decreases d
  {
    hide Diagnose, EvidenceIsRead;
    var k := SourceOf(log, onTheWay, taskId, again, d);
    if d.child.Some? { SourcedIsMade(log, Onward(onTheWay, taskId, log[k].answer.value), d.awaits.value, false, d.child.value); }
  }

  /** The tasks a sourced diagnosis is of, and how the last task it awaits is accounted for. */
  lemma {:induction false} ChainOf(log: seq<Read>, onTheWay: seq<TaskOnTheWay>, taskId: string, again: bool, d: Diagnosis)
    returns (tasks: seq<TaskOnTheWay>)
    requires Sourced(log, onTheWay, taskId, again, d) && Distinct(onTheWay)
    ensures IsChain(log, tasks, again, d) && Distinct(onTheWay + tasks) && tasks != [] && tasks[0].taskId == taskId
    ensures Deepest(d).child.None? && (Deepest(d).cause == AwaitingAChild ==>
      Deepest(d).awaits.Some? && Accounts(log, onTheWay + tasks, Deepest(d).awaits.value, Deepest(d)))
    decreases d
  {
    hide Sourced, MadeOf, Accounts, EndsByAClock, Distinct, IsChain, OnPath, Depth;
    var k := SourceOf(log, onTheWay, taskId, again, d);
    MadeIsOfFacts(log, k, again, d);
    var facts := log[k].answer.value;
    var one := TaskOnTheWay(taskId, EndsByAClock(facts));
    PathGrows(onTheWay, taskId, facts);
    if d.child.None? {
      tasks := [one];
      ChainOfOne(log, k, again, one, d);
    } else {
      var rest := ChainOf(log, Onward(onTheWay, taskId, facts), d.awaits.value, false, d.child.value);
      tasks := [one] + rest;
      assert onTheWay + tasks == Onward(onTheWay, taskId, facts) + rest;
      ChainOfMore(log, k, again, one, rest, d);
    }
  }

  lemma ChainOfOne(log: seq<Read>, k: int, again: bool, one: TaskOnTheWay, d: Diagnosis)
    requires MadeOf(log, k, again, d) && IsLastRead(log, one.taskId, k) && d.child.None?
    requires one.endsByAClock == EndsByAClock(log[k].answer.value)
    ensures IsChain(log, [one], again, d)
  {
    hide MadeOf, EndsByAClock;
  }

  lemma ChainOfMore(log: seq<Read>, k: int, again: bool, one: TaskOnTheWay, rest: seq<TaskOnTheWay>, d: Diagnosis)
    requires MadeOf(log, k, again, d) && IsLastRead(log, one.taskId, k)
    requires one.endsByAClock == EndsByAClock(log[k].answer.value)
    requires d.child.Some? && IsChain(log, rest, false, d.child.value) && rest != [] && d.awaits == Some(rest[0].taskId)
    ensures IsChain(log, [one] + rest, again, d)
  {
    hide MadeOf, EndsByAClock;
    assert ([one] + rest)[1..] == rest;
  }

  /**
   * `stuck` means one of two things: the last task is late past the grace, or the tasks that were
   * read and followed wait for each other in a ring that no clock ends.
   */
  lemma StuckIsARing(log: seq<Read>, onTheWay: seq<TaskOnTheWay>, taskId: string, again: bool, d: Diagnosis)
    requires Sourced(log, onTheWay, taskId, again, d) && Distinct(onTheWay) && d.verdict == Stuck
    ensures StuckFor(log, onTheWay, again, d)
  {
    hide Sourced, IsChain, Distinct;
    SourcedIsMade(log, onTheWay, taskId, again, d);
    StuckIsLateOrARing(d);
    if !LateAtTheEnd(d) {
      var tasks := ChainOf(log, onTheWay, taskId, again, d);
      var path := onTheWay + tasks;
      var k :| FirstOnPath(path, Deepest(d).awaits.value, k) && NoClockFrom(path, k);
      assert IsClocklessRing(log, onTheWay, tasks, again, d);
    }
  }

  /**
   * Every await is followed as far as it can be: the last task of a diagnosis that awaits a child
   * and reports no ring is the ninth of its path, or the task it awaits was read last and not found.
   */
  lemma AwaitsAreFollowed(log: seq<Read>, onTheWay: seq<TaskOnTheWay>, taskId: string, again: bool, d: Diagnosis)
    requires Sourced(log, onTheWay, taskId, again, d) && Distinct(onTheWay)
    requires Deepest(d).cause == AwaitingAChild && Deepest(d).ring.None?
    ensures Deepest(d).awaits.Some?
    ensures |onTheWay| + Depth(d) == 9
         || exists k :: IsLastRead(log, Deepest(d).awaits.value, k) && log[k].answer.None?
  {
    hide Sourced, Distinct;
    var tasks := ChainOf(log, onTheWay, taskId, again, d);
  }
}
