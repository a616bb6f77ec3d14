/** Exactly when a child await whose own run was never refused is told that its claim is lost. */
module LostAwaits {
  import opened Options
  import opened Tables
  import opened Protocol
  import opened ProtocolSteps
  import opened ProtocolHistory
  import opened ProtocolRuns
  import opened ProtocolEnded
  import opened ChildAwait

  ghost predicate AwaitedHere(db: Db, c: Call) {
    c.child in db.tasks && db.tasks[c.child].queue == c.a.queue
  }

  ghost predicate Recorded(db: Db, c: Call) {
    (c.a.queue, TaskDone(c.child)) in db.events
  }

  /** The run's claim and its task admit the await, in each batch of the round that is sent. */
  ghost predicate NeverRefused(w: World, c: Call, gaps: Gaps) {
    var read := ReadWorld(w, c, gaps).db;
    && !OwnRefusal(Looked(w, gaps).db, c.a)
    && (AwaitedHere(read, c) && !read.tasks[c.child].state.Live() ==> !OwnRefusal(Known(w, c, gaps).db, c.a))
  }

  /**
   * The rows of a round that ends without an answer. At its look the child was not one to park on
   * and nothing was recorded. By the read it was live, or by the record its row had changed.
   */
  ghost predicate Slipped(w: World, c: Call, gaps: Gaps) {
    var looked, read, known := Looked(w, gaps).db, ReadWorld(w, c, gaps).db, Known(w, c, gaps).db;
    && !Recorded(looked, c) && !(AwaitedHere(looked, c) && looked.tasks[c.child].state.Live())
    && AwaitedHere(read, c)
    && (read.tasks[c.child].state.Live()
        || (!Recorded(known, c) && c.child in known.tasks && known.tasks[c.child].stamp != read.tasks[c.child].stamp))
  }

  lemma LookIsSilent(w: World, c: Call)
    requires WorldInv(w) && !OwnRefusal(w.db, c.a)
    ensures Hit(w.db, c.a, TaskDone(c.child)).None? <==> !Recorded(w.db, c)
    ensures !Recorded(w.db, c) ==>
      (AwaitRegisters(w.db, c.a, TaskDone(c.child)) <==> AwaitedHere(w.db, c) && w.db.tasks[c.child].state.Live())
  {
    RunningRunHasNoWait(w.db, c.a.runId);
  }

  lemma RecordIsSilent(w: World, a: Await, read: Read)
    requires read in w.seen && !read.outcome.state.Live() && !OwnRefusal(w.db, a)
    requires read.child in w.db.tasks && w.db.tasks[read.child].queue == a.queue
    ensures Hit(Next(w, Records(a, read)).db, a, TaskDone(read.child)).None?
       <==> (a.queue, TaskDone(read.child)) !in w.db.events && w.db.tasks[read.child].stamp != read.stamp
  {
  }

  lemma ReadWritesNothing(w: World, child: string)
    ensures Next(w, Reads(child)).db == w.db
  {
  }

  /** A record the round sends, from the row its read saw. */
  lemma SentRecordIsSilent(w: World, c: Call, gaps: Gaps)
    requires WorldInv(w) && OlderAreEnded(w) && NeverRefused(w, c, gaps)
    requires AwaitedHere(ReadWorld(w, c, gaps).db, c) && !ReadWorld(w, c, gaps).db.tasks[c.child].state.Live()
    ensures var read, known := ReadWorld(w, c, gaps), Known(w, c, gaps);
      && c.child in known.db.tasks
      && (Hit(Next(known, Records(c.a, ReadOf(read, c.child))).db, c.a, TaskDone(c.child)).None?
          <==> !Recorded(known.db, c) && known.db.tasks[c.child].stamp != read.db.tasks[c.child].stamp)
  {
    hide OwnRefusal, WorldInv, OlderAreEnded, After, Hit, Apply, OlderAfter, AskedAfter;
    RoundBetween(w, c, gaps);
    ReadWritesNothing(After(Next(Looked(w, gaps), Asking(c)), gaps.reading), c.child);
    ReadIsSeen(After(Next(Looked(w, gaps), Asking(c)), gaps.reading), c.child);
    RecordIsSilent(Known(w, c, gaps), c.a, ReadOf(ReadWorld(w, c, gaps), c.child));
  }

  lemma RoundIsSilent(w: World, c: Call, gaps: Gaps)
    requires WorldInv(w) && OlderAreEnded(w) && NeverRefused(w, c, gaps)
    ensures Round(w, c, gaps).1.None? <==> Slipped(w, c, gaps)
  {
    hide OwnRefusal, WorldInv, OlderAreEnded, After, Hit, AwaitRegisters, Next, Recorded, Looked, ReadWorld, Known;
    var read := ReadWorld(w, c, gaps);
    RoundBetween(w, c, gaps);
    LookIsSilent(Looked(w, gaps), c);
    if AwaitedHere(read.db, c) && !read.db.tasks[c.child].state.Live() {
      SentRecordIsSilent(w, c, gaps);
    }
  }

  /**
   * An await whose run was never refused is told that its claim is lost exactly when the child
   * slipped past it in both rounds.
   */
  lemma LostExactly(w: World, c: Call, first: Gaps, second: Gaps)
    requires WorldInv(w) && OlderAreEnded(w) && NeverRefused(w, c, first)
    requires Round(w, c, first).1.None? ==> NeverRefused(Round(w, c, first).0, c, second)
    ensures Answered(w, c, first, second).1.ClaimLost?
       <==> Slipped(w, c, first) && Slipped(Round(w, c, first).0, c, second)
  {
    hide WorldInv, OlderAreEnded, NeverRefused, Slipped, Round;
    RoundIsSilent(w, c, first);
    RoundIsTruthful(w, c, first);
    if Round(w, c, first).1.None? {
      RoundIsSilent(Round(w, c, first).0, c, second);
      RoundIsTruthful(Round(w, c, first).0, c, second);
      if Round(Round(w, c, first).0, c, second).1.Some? { RoundNeverLoses(Round(w, c, first).0, c, second); }
    } else {
      RoundNeverLoses(w, c, first);
    }
  }

  /** Every reachable world meets what these lemmas ask of the world the await starts in. */
  lemma ReachableMayAwait(now: int, steps: seq<Step>)
    ensures WorldInv(After(Empty(now), steps)) && OlderAreEnded(After(Empty(now), steps))
  {
    EmptyIsSound(now);
    StepsBetween(Empty(now), steps, "");
  }

  lemma RoundNeverLoses(w: World, c: Call, gaps: Gaps)
    requires Round(w, c, gaps).1.Some?
    ensures !Round(w, c, gaps).1.value.ClaimLost?
  {
  }

  // ------------------------------------------------------------------------------------------
  // What must happen in such a round.

  /** The step brings the child to life: its spawn, or its revival. */
  ghost predicate Starts(w: World, step: Step, child: string) {
    RevivesIt(w, step, child) || (child !in w.db.tasks && child in Apply(w, step).tasks)
  }

  ghost predicate StartedIn(w: World, steps: seq<Step>, child: string)
    decreases |steps|
  {
    steps != [] && (Starts(w, steps[0], child) || StartedIn(Next(w, steps[0]), steps[1..], child))
  }

  /** The child is absent, or its row is an ended one and this very one. */
  ghost predicate Still(before: Db, after: Db, child: string) {
    if child in before.tasks then child in after.tasks && after.tasks[child] == before.tasks[child] else child !in after.tasks
  }

  ghost predicate AtRest(db: Db, child: string) {
    child in db.tasks ==> !db.tasks[child].state.Live()
  }

  lemma UnstartedRests(w: World, step: Step, child: string)
    requires AtRest(w.db, child) && !Starts(w, step, child)
    ensures Still(w.db, Apply(w, step), child)
  {
    if child in w.db.tasks { EndedRowStays(w, step, child); }
  }

  lemma {:induction false} UnstartedRestsOn(w: World, steps: seq<Step>, child: string)
    requires AtRest(w.db, child) && !StartedIn(w, steps, child)
    ensures Still(w.db, After(w, steps).db, child)
    decreases |steps|
  {
    if steps != [] {
      UnstartedRests(w, steps[0], child);
      UnstartedRestsOn(Next(w, steps[0]), steps[1..], child);
    }
  }

  /** A child slips past a round only if it is spawned or revived inside it. */
  lemma SlippedStarts(w: World, c: Call, gaps: Gaps)
    requires WorldInv(w) && OlderAreEnded(w) && Slipped(w, c, gaps)
    ensures StartedIn(Next(Looked(w, gaps), Asking(c)), gaps.reading, c.child)
         || StartedIn(ReadWorld(w, c, gaps), gaps.recording, c.child)
  {
    hide WorldInv, OlderAreEnded, After, Starts, StartedIn;
    var looked := Looked(w, gaps);
    var asked := Next(looked, Asking(c));
    RoundBetween(w, c, gaps);
    assert AtRest(looked.db, c.child);
    AskingStartsNothing(looked, c);
    if !StartedIn(asked, gaps.reading, c.child) {
      UnstartedRestsOn(asked, gaps.reading, c.child);
      ReadWritesNothing(After(asked, gaps.reading), c.child);
      if !StartedIn(ReadWorld(w, c, gaps), gaps.recording, c.child) {
        UnstartedRestsOn(ReadWorld(w, c, gaps), gaps.recording, c.child);
      }
    }
  }

  lemma AskingStartsNothing(w: World, c: Call)
    requires AtRest(w.db, c.child)
    ensures Still(w.db, Next(w, Asking(c)).db, c.child)
  {
    UnstartedRests(w, Asking(c), c.child);
  }

  // ------------------------------------------------------------------------------------------
  // A history that reaches the failing input.

  const CALL := Call(Await("queue", "parent", "caller", "worker", "step"), "child", None)

  function Pair(): seq<Step> {
    [Spawns(Spawning("queue", "parent", "caller", None, 1, 0, None, None, None)),
     Spawns(Spawning("queue", "child", "first", None, 1, 0, None, None, None)),
     Claims("queue", "worker", 1_000, 1, {"caller"}),
     OlderBuild("child", Failed, "{}")]
  }

  function TaskIn(state: State, stamp: Stamp): Task {
    Task("queue", None, state, 0, 1, 0, None, None, None, None, None, false, None, stamp)
  }

  function RunIn(taskId: string, seed: nat): Run {
    Run(taskId, "queue", 1, Pending, Some(0), None, None, None, None, 0, 0, 0, 0, None, By(seed, "run"))
  }

  function ClaimedCaller(): Run {
    RunIn("parent", 0).(state := Running, claimedBy := Some("worker"), claimGen := 1, leaseMs := 1_000,
                        expiresAt := Some(1_000), stamp := By(2, "claim"))
  }

  function BothSpawned(): Db {
    Db(0, map["parent" := TaskIn(Pending, By(0, "task")), "child" := TaskIn(Pending, By(1, "task"))],
       map["caller" := RunIn("parent", 0), "first" := RunIn("child", 1)], map[], map[])
  }

  function CallerClaimed(): Db {
    Db(0, map["parent" := TaskIn(Running, By(2, "task-book")), "child" := TaskIn(Pending, By(1, "task"))],
       map["caller" := ClaimedCaller(), "first" := RunIn("child", 1)], map[], map[])
  }

  function ChildFailed(): Db {
    Db(0, map["parent" := TaskIn(Running, By(2, "task-book")),
              "child" := TaskIn(Failed, By(3, "task")).(reason := Some("{}"))],
       map["caller" := ClaimedCaller(), "first" := RunIn("child", 1).(state := Failed, stamp := By(3, "runs"))], map[], map[])
  }

  lemma TheyAreSpawned() returns (w: World)
    ensures w == Next(Next(Empty(0), Pair()[0]), Pair()[1]) && w.db == BothSpawned() && w.seed == 2 && w.older == {}
  {
    w := Next(Next(Empty(0), Pair()[0]), Pair()[1]);
  }

  lemma TheCallerIsDue()
    ensures ClaimAdmits(BothSpawned(), "queue", "worker", 1_000, 1, {"caller"})
  {
    assert Held(BothSpawned(), "queue", "worker") == {};
    assert Claimable(BothSpawned(), "queue", "caller");
  }

  lemma TheCallerIsClaimed()
    ensures Claim(BothSpawned(), "queue", "worker", 1_000, 1, {"caller"}, 2) == CallerClaimed()
  {
    hide ClaimAdmits;
    TheCallerIsDue();
    TheRunsOfTheClaim();
    TheTasksOfTheClaim();
    assert Claim(BothSpawned(), "queue", "worker", 1_000, 1, {"caller"}, 2).waits == map[];
  }

  lemma TheRunsOfTheClaim()
    requires ClaimAdmits(BothSpawned(), "queue", "worker", 1_000, 1, {"caller"})
    ensures Claim(BothSpawned(), "queue", "worker", 1_000, 1, {"caller"}, 2).runs == CallerClaimed().runs
  {
    hide ClaimAdmits;
  }

  lemma TheTasksOfTheClaim()
    requires ClaimAdmits(BothSpawned(), "queue", "worker", 1_000, 1, {"caller"})
    ensures Claim(BothSpawned(), "queue", "worker", 1_000, 1, {"caller"}, 2).tasks == CallerClaimed().tasks
  {
    hide ClaimAdmits;
  }

  lemma TheChildFails()
    ensures OlderBuildEnds(CallerClaimed(), "child", Failed, "{}", 3) == ChildFailed()
  {
    var db := CallerClaimed();
    assert OlderBuildMayEnd(db, "child");
    var after := OlderBuildEnds(db, "child", Failed, "{}", 3);
    assert after.runs == ChildFailed().runs && after.tasks == ChildFailed().tasks && after.waits == map[];
  }

  lemma ThePairIsReached() returns (w: World)
    ensures w == After(Empty(0), Pair()) && w.db == ChildFailed()
  {
    hide Claim, Spawn, OlderBuildEnds, OlderEnding, After, ClaimAdmits, OlderBuildMayEnd;
    var steps := Pair();
    var spawned := TheyAreSpawned();
    TheCallerIsClaimed();
    TheChildFails();
    w := Next(Next(spawned, steps[2]), steps[3]);
    FourSteps(Empty(0), steps);
  }

  lemma FourSteps(w: World, steps: seq<Step>)
    requires |steps| == 4
    ensures After(w, steps) == Next(Next(Next(Next(w, steps[0]), steps[1]), steps[2]), steps[3])
  {
    assert steps[1..][1..] == steps[2..] && steps[2..][1..] == [steps[3]];
    OneStep(Next(Next(Next(w, steps[0]), steps[1]), steps[2]), steps[3]);
    assert After(Next(Next(w, steps[0]), steps[1]), steps[2..]) == After(Next(Next(Next(w, steps[0]), steps[1]), steps[2]), [steps[3]]);
    assert After(Next(w, steps[0]), steps[1..]) == After(Next(Next(w, steps[0]), steps[1]), steps[2..]);
  }

  /**
   * A parent and a child are spawned, the parent's run is claimed, and an older build fails the
   * child: from there two revivals and one more older build leave the parent told a falsehood.
   */
  lemma AReachedCallerIsToldLost()
    ensures var w := After(Empty(0), Pair());
      var first, second := FirstGaps(CALL, "first", "second"), SecondGaps(CALL, "second", "third", "{}");
      Answered(w, CALL, first, second).1.ClaimLost? && !OwnRefusal(Answered(w, CALL, first, second).0.db, CALL.a)
  {
    hide Answered, OwnRefusal, WorldInv, FailedUnrecorded, After, Pair, FirstGaps, SecondGaps;
    var w := ThePairIsReached();
    ReachableIsSound(0, Pair());
    TheChildMayReturn(w);
    TwoRoundsAreNotEnough(w, CALL, "first", "second", "third", "{}");
  }

  lemma TheChildMayReturn(w: World)
    requires w.db == ChildFailed() && WorldInv(w)
    ensures FailedUnrecorded(w, CALL, "first")
  {
    hide WorldInv;
    assert TopRun(w.db, "child", "first");
  }
}
