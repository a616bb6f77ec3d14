/**
 * The child await: up to two rounds of `await-event`, a read of the child, and the batch that
 * records an unrecorded ending, with anything at all happening between the batches.
 */
module ChildAwait {
  import opened Options
  import opened Tables
  import opened Protocol
  import opened ProtocolInvariant
  import opened ProtocolSteps
  import opened ProtocolHistory
  import opened ProtocolRuns
  import opened ProtocolEnded

  datatype Answer = Emitted(payload: Payload) | Parked | NoSuchTask | OtherQueue | ClaimLost

  /** The run's own reasons: its claim is gone, or its task may not suspend. */
  predicate OwnRefusal(db: Db, a: Await) {
    || !StillClaimed(db, a) || !Eligible(db.tasks[a.taskId], db.now) || db.tasks[a.taskId].saga.Some?
  }

  ghost predicate OlderAreEnded(w: World) {
    forall id :: id in w.older ==> id in w.db.tasks && !w.db.tasks[id].state.Live()
  }

  /** The deploy rule as the await needs it: no older build ends this child while the await runs. */
  predicate SparesChild(steps: seq<Step>, child: string) {
    forall i :: 0 <= i < |steps| ==> !(steps[i].OlderBuild? && steps[i].taskId == child)
  }

  // ------------------------------------------------------------------------------------------
  // What the batches between may do.

  lemma OlderEndedKeeps(w: World, step: Step)
    requires OlderAreEnded(w)
    ensures OlderAreEnded(Next(w, step))
  {
    forall id | id in OlderAfter(w, step) ensures id in Apply(w, step).tasks && !Apply(w, step).tasks[id].state.Live() {
      if id in w.older {
        EndedRowStays(w, step, id);
      }
    }
  }

  /** What an interval of other batches keeps, for a child no older build ends meanwhile. */
  ghost predicate Between(before: World, after: World, child: string) {
    && WorldInv(after) && OlderAreEnded(after)
    && (child in before.db.tasks ==> child in after.db.tasks && after.db.tasks[child].queue == before.db.tasks[child].queue)
    && before.seen <= after.seen && before.seed <= after.seed
  }

  /** An ended child that stays one an older build ended has not been touched. */
  ghost predicate Untouched(before: World, after: World, child: string) {
    child in before.db.tasks && child in after.older ==>
      child in before.older && child in after.db.tasks && after.db.tasks[child] == before.db.tasks[child]
  }

  lemma StepLeavesUntouched(w: World, step: Step, child: string)
    requires OlderAreEnded(w) && !(step.OlderBuild? && step.taskId == child)
    ensures Untouched(w, Next(w, step), child)
  {
    if child in w.db.tasks && child in OlderAfter(w, step) {
      assert child in w.older && !RevivesIt(w, step, child);
      EndedRowStays(w, step, child);
    }
  }

  lemma StepKeepsQueue(w: World, step: Step, child: string)
    requires child in w.db.tasks
    ensures child in Next(w, step).db.tasks && Next(w, step).db.tasks[child].queue == w.db.tasks[child].queue
  {
    TasksAndEventsGrow(w, step);
  }

  lemma StepBetween(w: World, step: Step, child: string)
    requires WorldInv(w) && OlderAreEnded(w)
    ensures Between(w, Next(w, step), child)
    ensures !(step.OlderBuild? && step.taskId == child) ==> Untouched(w, Next(w, step), child)
  {
    StepKeeps(w, step);
    OlderEndedKeeps(w, step);
    if child in w.db.tasks { StepKeepsQueue(w, step, child); }
    if !(step.OlderBuild? && step.taskId == child) { StepLeavesUntouched(w, step, child); }
  }

  lemma {:induction false} StepsBetween(w: World, steps: seq<Step>, child: string)
    requires WorldInv(w) && OlderAreEnded(w)
    ensures Between(w, After(w, steps), child)
    ensures SparesChild(steps, child) ==> Untouched(w, After(w, steps), child)
    decreases |steps|
  {
    if steps != [] {
      StepBetween(w, steps[0], child);
      StepsBetween(Next(w, steps[0]), steps[1..], child);
      if SparesChild(steps, child) {
        assert !(steps[0].OlderBuild? && steps[0].taskId == child);
        assert SparesChild(steps[1..], child);
      }
    }
  }

  // ------------------------------------------------------------------------------------------
  // One round.

  datatype Call = Call(a: Await, child: string, timeoutMs: Option<nat>)

  /** What happens before each of the round's batches. */
  datatype Gaps = Gaps(before: seq<Step>, reading: seq<Step>, recording: seq<Step>)

  function Awaited(c: Call): EventName {
    TaskDone(c.child)
  }

  function Asking(c: Call): Step {
    Awaits(c.a, Awaited(c), c.timeoutMs)
  }

  function ReadOf(w: World, child: string): Read
    requires child in w.db.tasks
  {
    Read(child, w.db.tasks[child].stamp, OutcomeOf(w.db.tasks[child]))
  }

  /** The world the round's first batch finds. */
  function Looked(w: World, gaps: Gaps): World {
    After(w, gaps.before)
  }

  /** The world the round's read leaves. */
  function ReadWorld(w: World, c: Call, gaps: Gaps): World {
    Next(After(Next(Looked(w, gaps), Asking(c)), gaps.reading), Reads(c.child))
  }

  /** The world the round's record finds. */
  function Known(w: World, c: Call, gaps: Gaps): World {
    After(ReadWorld(w, c, gaps), gaps.recording)
  }

  /** One round: the world it leaves, and its answer if it has one. */
  function Round(w: World, c: Call, gaps: Gaps): (World, Option<Answer>) {
    var looked := Looked(w, gaps);
    var asked := Next(looked, Asking(c));
    if Hit(looked.db, c.a, Awaited(c)).Some? then (asked, Some(Emitted(Hit(looked.db, c.a, Awaited(c)).value)))
    else if AwaitRegisters(looked.db, c.a, Awaited(c)) then (asked, Some(Parked))
    else
      var read := ReadWorld(w, c, gaps);
      if c.child !in read.db.tasks then (read, Some(NoSuchTask))
      else if read.db.tasks[c.child].queue != c.a.queue then (read, Some(OtherQueue))
      else if read.db.tasks[c.child].state.Live() then (read, None)
      else
        var recorded := Next(Known(w, c, gaps), Records(c.a, ReadOf(read, c.child)));
        var hit := Hit(recorded.db, c.a, Awaited(c));
        (recorded, if hit.Some? then Some(Emitted(hit.value)) else None)
  }

  /** The await: two rounds, and the loss of the claim when neither answers. */
  function Answered(w: World, c: Call, first: Gaps, second: Gaps): (World, Answer) {
    var one := Round(w, c, first);
    if one.1.Some? then (one.0, one.1.value)
    else
      var two := Round(one.0, c, second);
      (two.0, if two.1.Some? then two.1.value else ClaimLost)
  }

  method AwaitTaskDone(w0: World, c: Call, gaps: seq<Gaps>) returns (w: World, answer: Answer)
    requires |gaps| == 2
    ensures (w, answer) == Answered(w0, c, gaps[0], gaps[1])
  {
    w := w0;
    ghost var start := w0;
    for round := 0 to 2
      invariant w == start
      invariant round == 0 ==> start == w0
      invariant round == 1 ==> Round(w0, c, gaps[0]) == (start, None)
      invariant round == 2 ==> Answered(w0, c, gaps[0], gaps[1]) == (start, ClaimLost)
    {
      w := After(w, gaps[round].before);
      var hit := Hit(w.db, c.a, Awaited(c));
      var registers := AwaitRegisters(w.db, c.a, Awaited(c));
      w := Next(w, Asking(c));
      if hit.Some? {
        return w, Emitted(hit.value);
      }
      if registers {
        return w, Parked;
      }
      w := Next(After(w, gaps[round].reading), Reads(c.child));
      if c.child !in w.db.tasks {
        return w, NoSuchTask;
      }
      if w.db.tasks[c.child].queue != c.a.queue {
        return w, OtherQueue;
      }
      if !w.db.tasks[c.child].state.Live() {
        var read := ReadOf(w, c.child);
        w := Next(After(w, gaps[round].recording), Records(c.a, read));
        var recorded := Hit(w.db, c.a, Awaited(c));
        if recorded.Some? {
          return w, Emitted(recorded.value);
        }
      }
      start := w;
    }
    return w, ClaimLost;
  }

  // ------------------------------------------------------------------------------------------
  // What its answers mean.

  ghost predicate Truthful(w: World, c: Call, answer: Answer) {
    match answer
    case Emitted(payload) =>
      var key := (c.a.queue, Awaited(c));
      key in w.db.events && w.db.events[key].payload == payload && Decodes(payload)
    case Parked =>
      var key := (c.a.runId, c.a.step);
      && key in w.db.waits && w.db.waits[key].event == Awaited(c) && key.0 in w.db.runs && w.db.runs[key.0].state == Sleeping
      && StillAhead(w.db, w.db.waits[key])
    case NoSuchTask => c.child !in w.db.tasks
    case OtherQueue => c.child in w.db.tasks && w.db.tasks[c.child].queue != c.a.queue
    case ClaimLost => true
  }

  lemma ParksTruly(w: World, c: Call)
    requires WorldInv(w) && AwaitRegisters(w.db, c.a, Awaited(c))
    ensures Truthful(Next(w, Asking(c)), c, Parked)
  {
    hide Inv, StampsAreSpent, ClaimsBounded;
    StepKeeps(w, Asking(c));
    var after := Next(w, Asking(c));
    assert StillAhead(after.db, after.db.waits[(c.a.runId, c.a.step)]);
  }

  lemma HitsTruly(w: World, c: Call, after: World)
    requires WorldInv(w) && Hit(w.db, c.a, Awaited(c)).Some? && EventsGrow(w.db, after.db)
    ensures Truthful(after, c, Emitted(Hit(w.db, c.a, Awaited(c)).value))
  {
  }

  lemma RoundBetween(w: World, c: Call, gaps: Gaps)
    requires WorldInv(w) && OlderAreEnded(w)
    ensures Between(w, Looked(w, gaps), c.child) && Between(Looked(w, gaps), Next(Looked(w, gaps), Asking(c)), c.child)
    ensures Between(Looked(w, gaps), ReadWorld(w, c, gaps), c.child) && Between(w, ReadWorld(w, c, gaps), c.child)
    ensures Between(ReadWorld(w, c, gaps), Known(w, c, gaps), c.child) && Between(w, Known(w, c, gaps), c.child)
  {
    var looked := Looked(w, gaps);
    StepsBetween(w, gaps.before, c.child);
    StepBetween(looked, Asking(c), c.child);
    StepsBetween(Next(looked, Asking(c)), gaps.reading, c.child);
    StepBetween(After(Next(looked, Asking(c)), gaps.reading), Reads(c.child), c.child);
    StepsBetween(ReadWorld(w, c, gaps), gaps.recording, c.child);
  }

  lemma RoundIsTruthful(w: World, c: Call, gaps: Gaps)
    requires WorldInv(w) && OlderAreEnded(w)
    ensures var round := Round(w, c, gaps);
      Between(w, round.0, c.child) && (round.1.Some? ==> Truthful(round.0, c, round.1.value))
  {
    var looked := Looked(w, gaps);
    RoundBetween(w, c, gaps);
    if Hit(looked.db, c.a, Awaited(c)).Some? {
      TasksAndEventsGrow(looked, Asking(c));
      HitsTruly(looked, c, Next(looked, Asking(c)));
    } else if AwaitRegisters(looked.db, c.a, Awaited(c)) {
      ParksTruly(looked, c);
    } else {
      var read := ReadWorld(w, c, gaps);
      if c.child in read.db.tasks && read.db.tasks[c.child].queue == c.a.queue && !read.db.tasks[c.child].state.Live() {
        var known := Known(w, c, gaps);
        StepBetween(known, Records(c.a, ReadOf(read, c.child)), c.child);
        var recorded := Next(known, Records(c.a, ReadOf(read, c.child)));
        if Hit(recorded.db, c.a, Awaited(c)).Some? { HitsTruly(recorded, c, recorded); }
      }
    }
  }

  /**
   * Every answer is true of the rows it is given over: an outcome is the stored one, a parked
   * run sleeps under a wait that a live child of its queue will answer, and only a child that
   * does not exist or is in another queue is refused.
   */
  lemma AwaitIsTruthful(w: World, c: Call, first: Gaps, second: Gaps)
    requires WorldInv(w) && OlderAreEnded(w)
    ensures var (after, answer) := Answered(w, c, first, second);
      && WorldInv(after) && Truthful(after, c, answer)
      && (c.child in w.db.tasks && w.db.tasks[c.child].queue == c.a.queue ==> !answer.NoSuchTask? && !answer.OtherQueue?)
  {
    RoundIsTruthful(w, c, first);
    RoundIsTruthful(Round(w, c, first).0, c, second);
  }

  // ------------------------------------------------------------------------------------------
  // When it says the claim is lost.

  predicate Spares(gaps: Gaps, child: string) {
    SparesChild(gaps.before, child) && SparesChild(gaps.reading, child) && SparesChild(gaps.recording, child)
  }

  lemma {:induction false} StaysOut(w: World, steps: seq<Step>, child: string)
    requires child !in w.older && SparesChild(steps, child)
    ensures child !in After(w, steps).older
    decreases |steps|
  {
    if steps != [] {
      assert !(steps[0].OlderBuild? && steps[0].taskId == child);
      StaysOut(Next(w, steps[0]), steps[1..], child);
    }
  }

  /** `await-event` neither hits nor registers: the run is refused, or the child is not one it may park on. */
  lemma NeitherHitNorRegistered(w: World, a: Await, child: string)
    requires WorldInv(w) && Hit(w.db, a, TaskDone(child)).None? && !AwaitRegisters(w.db, a, TaskDone(child))
    requires child in w.db.tasks && w.db.tasks[child].queue == a.queue && child !in w.older
    ensures OwnRefusal(w.db, a)
  {
    if !OwnRefusal(w.db, a) {
      RunningRunHasNoWait(w.db, a.runId);
    }
  }

  /** A record under the row that was read is answered, by the event it finds or by its own. */
  lemma RecordAnswers(w: World, a: Await, read: Read)
    requires read in w.seen && !read.outcome.state.Live() && !OwnRefusal(w.db, a)
    requires read.child in w.db.tasks && w.db.tasks[read.child].queue == a.queue
    requires w.db.tasks[read.child].stamp == read.stamp
    ensures Hit(Next(w, Records(a, read)).db, a, TaskDone(read.child)).Some?
  {
  }

  /** The round's own refusals: at its await, and at its record if it sent one. */
  predicate RefusedInRound(w: World, c: Call, gaps: Gaps) {
    var read := ReadWorld(w, c, gaps);
    || OwnRefusal(Looked(w, gaps).db, c.a)
    || (c.child in read.db.tasks && !read.db.tasks[c.child].state.Live() && OwnRefusal(Known(w, c, gaps).db, c.a))
  }

  lemma ReadIsSeen(w: World, child: string)
    requires child in w.db.tasks
    ensures ReadOf(w, child) in Next(w, Reads(child)).seen && Next(w, Reads(child)).db == w.db
  {
  }

  /** A round that neither answers nor is refused leaves a child some batch of this build will have recorded. */
  lemma RoundFindsChild(w: World, c: Call, gaps: Gaps)
    requires WorldInv(w) && OlderAreEnded(w) && Spares(gaps, c.child)
    requires Round(w, c, gaps).1.None? && !RefusedInRound(w, c, gaps)
    ensures var after := Round(w, c, gaps).0;
      c.child !in after.older && c.child in after.db.tasks && after.db.tasks[c.child].queue == c.a.queue
  {
    hide WorldInv, OwnRefusal, Hit, AwaitRegisters;
    var read := ReadWorld(w, c, gaps);
    var known := Known(w, c, gaps);
    RoundBetween(w, c, gaps);
    RoundIsTruthful(w, c, gaps);
    if !read.db.tasks[c.child].state.Live() {
      ReadIsSeen(After(Next(Looked(w, gaps), Asking(c)), gaps.reading), c.child);
      StepsBetween(read, gaps.recording, c.child);
      if c.child in known.older {
        assert known.db.tasks[c.child] == read.db.tasks[c.child];
        RecordAnswers(known, c.a, ReadOf(read, c.child));
        assert false;
      }
      StepKeepsQueue(known, Records(c.a, ReadOf(read, c.child)), c.child);
    }
  }

  /** A round on a child no older build ended answers, unless the run's own await is refused. */
  lemma KnownChildIsAnswered(w: World, c: Call, gaps: Gaps)
    requires WorldInv(w) && OlderAreEnded(w) && SparesChild(gaps.before, c.child)
    requires c.child !in w.older && c.child in w.db.tasks && w.db.tasks[c.child].queue == c.a.queue
    requires Round(w, c, gaps).1.None?
    ensures OwnRefusal(Looked(w, gaps).db, c.a)
  {
    StaysOut(w, gaps.before, c.child);
    RoundBetween(w, c, gaps);
    NeitherHitNorRegistered(Looked(w, gaps), c.a, c.child);
  }

  lemma LostInBothRounds(w: World, c: Call, first: Gaps, second: Gaps)
    requires Answered(w, c, first, second).1.ClaimLost?
    ensures Round(w, c, first).1.None? && Round(Round(w, c, first).0, c, second).1.None?
  {
  }

  /**
   * Two rounds are enough: while no older build ends the child, an await told that its claim is
   * lost was refused for the run's own reasons, in a batch it sent.
   */
  lemma LostMeansRefused(w: World, c: Call, first: Gaps, second: Gaps)
    requires WorldInv(w) && OlderAreEnded(w) && Spares(first, c.child) && Spares(second, c.child)
    requires Answered(w, c, first, second).1.ClaimLost?
    ensures RefusedInRound(w, c, first) || OwnRefusal(Looked(Round(w, c, first).0, second).db, c.a)
  {
    LostInBothRounds(w, c, first, second);
    if !RefusedInRound(w, c, first) {
      RoundIsTruthful(w, c, first);
      RoundFindsChild(w, c, first);
      KnownChildIsAnswered(Round(w, c, first).0, c, second);
    }
  }

  // ------------------------------------------------------------------------------------------
  // Without the deploy rule, two rounds are not enough.

  /** A child that failed with nothing recorded, and a run that may await it. */
  ghost predicate FailedUnrecorded(w: World, c: Call, top: string) {
    && WorldInv(w) && !OwnRefusal(w.db, c.a) && c.child != c.a.taskId
    && c.child in w.db.tasks && w.db.tasks[c.child].queue == c.a.queue && w.db.tasks[c.child].state == Failed
    && (c.a.queue, Awaited(c)) !in w.db.events
    && w.db.tasks[c.child].saga.None? && TopRun(w.db, c.child, top) && Charged(w.db.runs[top], w.db.tasks[c.child])
  }

  lemma RevivalIsAdmitted(w: World, c: Call, top: string, next: string)
    requires FailedUnrecorded(w, c, top) && next !in w.db.runs
    ensures RetryAdmits(w.db, c.a.queue, c.child, top, next)
  {
    forall id | id in w.db.runs && w.db.runs[id].taskId == c.child ensures !w.db.runs[id].state.Live() {
      assert Owns(w.db, w.db.runs[id]);
    }
    forall id | id in w.db.runs ensures w.db.runs[id].taskId == c.child ==> w.db.runs[id].queue == c.a.queue {
      assert Owns(w.db, w.db.runs[id]);
    }
  }

  lemma AskingChangesNothing(w: World, c: Call)
    requires c.child in w.db.tasks && !w.db.tasks[c.child].state.Live() && (c.a.queue, Awaited(c)) !in w.db.events
    ensures Hit(w.db, c.a, Awaited(c)).None? && !AwaitRegisters(w.db, c.a, Awaited(c))
    ensures Next(w, Asking(c)) == World(w.db, w.older, w.seen, w.asked, w.seed + 1)
  {
  }

  lemma OneStep(w: World, step: Step)
    ensures After(w, [step]) == Next(w, step)
  {
    assert [step][1..] == [];
    assert After(Next(w, step), []) == Next(w, step);
  }

  lemma LiveAtTheRead(w: World, c: Call, gaps: Gaps)
    requires Hit(Looked(w, gaps).db, c.a, Awaited(c)).None? && !AwaitRegisters(Looked(w, gaps).db, c.a, Awaited(c))
    requires var db := ReadWorld(w, c, gaps).db;
      c.child in db.tasks && db.tasks[c.child].queue == c.a.queue && db.tasks[c.child].state.Live()
    ensures Round(w, c, gaps) == (ReadWorld(w, c, gaps), None)
  {
  }

  lemma RevivalIsLive(db: Db, queue: string, child: string, top: string, next: string, seed: nat)
    requires RetryAdmits(db, queue, child, top, next)
    ensures var after := RetryTask(db, queue, child, top, next, seed);
      && child in after.tasks && after.tasks[child].queue == queue && after.tasks[child].state.Live()
  {
  }

  lemma ReadAfterRevival(w: World, queue: string, child: string, top: string, next: string)
    requires RetryAdmits(w.db, queue, child, top, next)
    ensures var read := Next(After(w, [Revives(queue, child, top, next)]), Reads(child));
      read.db == RetryTask(w.db, queue, child, top, next, w.seed) && read.older == w.older - {child}
  {
    OneStep(w, Revives(queue, child, top, next));
  }

  /** The rows after the child was revived between the look and the read: the revival's, and no answer. */
  lemma RevivedBeforeTheRead(w: World, c: Call, top: string, next: string, before: seq<Step>)
    requires var looked := After(w, before);
      && RetryAdmits(looked.db, c.a.queue, c.child, top, next) && (c.a.queue, Awaited(c)) !in looked.db.events
    ensures var looked := After(w, before);
      var round := Round(w, c, Gaps(before, [Revives(c.a.queue, c.child, top, next)], []));
      && round.1.None? && round.0.older == looked.older - {c.child}
      && round.0.db == RetryTask(looked.db, c.a.queue, c.child, top, next, looked.seed + 1)
  {
    var looked := After(w, before);
    var gaps := Gaps(before, [Revives(c.a.queue, c.child, top, next)], []);
    var asked := World(looked.db, looked.older, looked.seen, looked.asked, looked.seed + 1);
    AskingChangesNothing(looked, c);
    ReadAfterRevival(asked, c.a.queue, c.child, top, next);
    assert ReadWorld(w, c, gaps) == Next(After(asked, gaps.reading), Reads(c.child));
    RevivalIsLive(looked.db, c.a.queue, c.child, top, next, looked.seed + 1);
    LiveAtTheRead(w, c, gaps);
  }

  /** The rows of the caller's run and of its task, which a batch on another task leaves alone. */
  predicate SameCaller(db: Db, after: Db, a: Await) {
    && a.runId in db.runs && a.runId in after.runs && after.runs[a.runId] == db.runs[a.runId]
    && a.taskId in db.tasks && a.taskId in after.tasks && after.tasks[a.taskId] == db.tasks[a.taskId] && after.now == db.now
  }

  lemma CallerStaysAdmitted(db: Db, after: Db, a: Await)
    requires SameCaller(db, after, a) && !OwnRefusal(db, a)
    ensures !OwnRefusal(after, a)
  {
  }

  lemma RevivalSparesCaller(db: Db, queue: string, child: string, top: string, next: string, seed: nat, a: Await)
    requires RetryAdmits(db, queue, child, top, next) && !OwnRefusal(db, a) && child != a.taskId
    ensures SameCaller(db, RetryTask(db, queue, child, top, next, seed), a)
  {
  }

  lemma OlderBuildSparesCaller(db: Db, child: string, text: string, seed: nat, a: Await)
    requires !OwnRefusal(db, a) && child != a.taskId
    ensures SameCaller(db, OlderBuildEnds(db, child, Failed, text, seed), a)
  {
  }

  /** Nobody waits for a revived child yet, so an older build may end it. */
  lemma RevivedMayEnd(w: World, c: Call, top: string, next: string, seed: nat)
    requires FailedUnrecorded(w, c, top) && next !in w.db.runs
    ensures OlderBuildMayEnd(RetryTask(w.db, c.a.queue, c.child, top, next, seed), c.child)
  {
    hide StampsAreSpent, ClaimsBounded, Manned, Numbered, Settled, OwnRefusal;
    RevivalIsAdmitted(w, c, top, next);
    forall key | key in w.db.waits ensures w.db.waits[key].event != TaskDone(c.child) {
      assert StillAhead(w.db, w.db.waits[key]);
    }
  }

  /** A revived task that failed again can be revived again, from its revival's run. */
  lemma RevivedAgain(db: Db, queue: string, child: string, top: string, one: string, two: string, text: string,
                     seed: nat, later: nat)
    requires RetryAdmits(db, queue, child, top, one) && Charged(db.runs[top], db.tasks[child])
    requires two !in db.runs && two != one
    requires OlderBuildMayEnd(RetryTask(db, queue, child, top, one, seed), child)
    ensures var again := OlderBuildEnds(RetryTask(db, queue, child, top, one, seed), child, Failed, text, later);
      RetryAdmits(again, queue, child, one, two) && again.events == db.events
  {
    var revived := RetryTask(db, queue, child, top, one, seed);
    var again := OlderBuildEnds(revived, child, Failed, text, later);
    assert TopRun(revived, child, one);
    assert TopRun(again, child, one);
  }

  function Revival(db: Db, c: Call, top: string, next: string, seed: nat): Db {
    RetryTask(db, c.a.queue, c.child, top, next, seed)
  }

  lemma AfterOlderBuild(w: World, child: string, text: string)
    ensures var after := After(w, [OlderBuild(child, Failed, text)]);
      after.db == OlderBuildEnds(w.db, child, Failed, text, w.seed) && after.seed == w.seed + 1
  {
    OneStep(w, OlderBuild(child, Failed, text));
  }

  /** The second round, from the rows the first revival left. */
  lemma SecondRound(middle: World, c: Call, again: Db, one: string, two: string, text: string)
    requires again == OlderBuildEnds(middle.db, c.child, Failed, text, middle.seed)
    requires RetryAdmits(again, c.a.queue, c.child, one, two) && (c.a.queue, Awaited(c)) !in again.events
    ensures var round := Round(middle, c, Gaps([OlderBuild(c.child, Failed, text)],
                                               [Revives(c.a.queue, c.child, one, two)], []));
      round.1.None? && round.0.db == Revival(again, c, one, two, middle.seed + 2)
  {
    AfterOlderBuild(middle, c.child, text);
    RevivedBeforeTheRead(middle, c, one, two, [OlderBuild(c.child, Failed, text)]);
  }

  /** The caller's rows are never touched, so it holds its claim throughout. */
  lemma CallerHoldsOn(db: Db, c: Call, top: string, one: string, two: string, text: string, seed: nat, later: nat, last: nat)
    requires !OwnRefusal(db, c.a) && c.child != c.a.taskId && RetryAdmits(db, c.a.queue, c.child, top, one)
    requires var again := OlderBuildEnds(Revival(db, c, top, one, seed), c.child, Failed, text, later);
      RetryAdmits(again, c.a.queue, c.child, one, two)
    ensures var again := OlderBuildEnds(Revival(db, c, top, one, seed), c.child, Failed, text, later);
      !OwnRefusal(Revival(again, c, one, two, last), c.a)
  {
    var revived := Revival(db, c, top, one, seed);
    var again := OlderBuildEnds(revived, c.child, Failed, text, later);
    RevivalSparesCaller(db, c.a.queue, c.child, top, one, seed, c.a);
    CallerStaysAdmitted(db, revived, c.a);
    OlderBuildSparesCaller(revived, c.child, text, later, c.a);
    CallerStaysAdmitted(revived, again, c.a);
    RevivalSparesCaller(again, c.a.queue, c.child, one, two, last, c.a);
    CallerStaysAdmitted(again, Revival(again, c, one, two, last), c.a);
  }

  lemma NeitherRoundAnswers(w: World, c: Call, first: Gaps, second: Gaps, rows: Db)
    requires Round(w, c, first).1.None? && Round(Round(w, c, first).0, c, second).1.None?
    requires Round(Round(w, c, first).0, c, second).0.db == rows && !OwnRefusal(rows, c.a)
    ensures Answered(w, c, first, second).1.ClaimLost? && !OwnRefusal(Answered(w, c, first, second).0.db, c.a)
  {
  }

  /** The rows before the await: a child that may be revived, ended again by an older build, and revived again. */
  ghost predicate MayEndTwice(w: World, c: Call, top: string, one: string, two: string) {
    && RetryAdmits(w.db, c.a.queue, c.child, top, one) && Charged(w.db.runs[top], w.db.tasks[c.child])
    && !OwnRefusal(w.db, c.a) && c.child != c.a.taskId && (c.a.queue, Awaited(c)) !in w.db.events
    && two !in w.db.runs && two != one && OlderBuildMayEnd(Revival(w.db, c, top, one, w.seed + 1), c.child)
  }

  function FirstGaps(c: Call, top: string, one: string): Gaps {
    Gaps([], [Revives(c.a.queue, c.child, top, one)], [])
  }

  function SecondGaps(c: Call, one: string, two: string, text: string): Gaps {
    Gaps([OlderBuild(c.child, Failed, text)], [Revives(c.a.queue, c.child, one, two)], [])
  }

  lemma FirstRound(w: World, c: Call, top: string, one: string, two: string)
    requires MayEndTwice(w, c, top, one, two)
    ensures Round(w, c, FirstGaps(c, top, one)).1.None?
    ensures Round(w, c, FirstGaps(c, top, one)).0.db == Revival(w.db, c, top, one, w.seed + 1)
  {
    hide RetryAdmits, OwnRefusal, OlderBuildMayEnd, Round;
    RevivedBeforeTheRead(w, c, top, one, []);
  }

  lemma RowsOfTheSecondRound(w: World, c: Call, top: string, one: string, two: string, text: string, later: nat, last: nat)
    requires MayEndTwice(w, c, top, one, two)
    ensures var again := OlderBuildEnds(Revival(w.db, c, top, one, w.seed + 1), c.child, Failed, text, later);
      && RetryAdmits(again, c.a.queue, c.child, one, two) && (c.a.queue, Awaited(c)) !in again.events
      && !OwnRefusal(Revival(again, c, one, two, last), c.a)
  {
    RevivedAgain(w.db, c.a.queue, c.child, top, one, two, text, w.seed + 1, later);
    CallerHoldsOn(w.db, c, top, one, two, text, w.seed + 1, later, last);
  }

  lemma TwoRounds(w: World, c: Call, top: string, one: string, two: string, text: string)
    requires MayEndTwice(w, c, top, one, two)
    ensures var first, second := FirstGaps(c, top, one), SecondGaps(c, one, two, text);
      Answered(w, c, first, second).1.ClaimLost? && !OwnRefusal(Answered(w, c, first, second).0.db, c.a)
  {
    FirstRound(w, c, top, one, two);
    var middle := Round(w, c, FirstGaps(c, top, one)).0;
    var again := OlderBuildEnds(middle.db, c.child, Failed, text, middle.seed);
    RowsOfTheSecondRound(w, c, top, one, two, text, middle.seed, middle.seed + 2);
    SecondRound(middle, c, again, one, two, text);
    NeitherRoundAnswers(w, c, FirstGaps(c, top, one), SecondGaps(c, one, two, text),
                        Revival(again, c, one, two, middle.seed + 2));
  }

  /**
   * The deploy rule is needed: an older build that ends the child between the rounds, and a
   * second revival, leave a caller that holds its claim told that it lost it.
   */
  lemma TwoRoundsAreNotEnough(w: World, c: Call, top: string, one: string, two: string, text: string)
    requires FailedUnrecorded(w, c, top) && one !in w.db.runs && two !in w.db.runs && one != two
    ensures var first, second := FirstGaps(c, top, one), SecondGaps(c, one, two, text);
      Answered(w, c, first, second).1.ClaimLost? && !OwnRefusal(Answered(w, c, first, second).0.db, c.a)
  {
    hide WorldInv, Answered, OwnRefusal, RetryAdmits, OlderBuildMayEnd, Charged;
    RevivalIsAdmitted(w, c, top, one);
    RevivedMayEnd(w, c, top, one, w.seed + 1);
    TwoRounds(w, c, top, one, two, text);
  }
}
